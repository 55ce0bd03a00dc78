/** The batch merge analyzer: classifies the conflicts of a simulated merge by
    kind, derives a risk level and a recommendation per operation, and
    aggregates a batch of operations by module, risk and recommendation. The
    workbooks, the presence of the field-data document and any error raised
    while reading them arrive as inputs. */
module BatchMergeAnalyzer {
  import opened Wrappers
  import opened Seqs
  import ExcelImport
  import opened Merge

  /** `dataType`, `required`, `mapping`, `description` or `other`. */
  datatype Kind = DataTypeKind | RequiredKind | MappingKind | DescriptionKind | OtherKind

  /** `low`, `medium` or `high`. */
  datatype Level = Low | Medium | High

  /** `auto-merge`, `manual-review` or `skip`. */
  datatype Recommendation = AutoMerge | ManualReview | Skip

  /** The tally of one kind of conflict. */
  datatype ConflictType = ConflictType(kind: Kind, count: nat, severity: Level, examples: seq<string>)

  /** The analysis of one operation, without its timestamp. */
  datatype OperationAnalysis = OperationAnalysis(
    operationCode: string,
    hasExcel: bool,
    hasDatabase: bool,
    excelFileCount: nat,
    fieldCount: nat,
    conflictCount: nat,
    conflictTypes: seq<ConflictType>,
    canAutoMerge: bool,
    mergeRisk: Level,
    recommendation: Recommendation,
    skipReason: Option<string>)

  /** What reading an operation's sources produced: the error raised (its
      message), or the workbooks found, whether the field-data document exists
      and the fields it holds. */
  datatype Probe =
    | Fault(message: string)
    | Sources(workbooks: seq<ExcelImport.ExcelWorkbook>, hasDatabase: bool, existing: Option<seq<DbField>>)

  datatype OperationInput = OperationInput(operationCode: string, probe: Probe)

  /** The three counters of a batch summary; `moduleOrder` is the key order of
      `byModule`. */
  datatype Summary = Summary(
    moduleOrder: seq<string>,
    byModule: map<string, nat>,
    byRisk: map<Level, nat>,
    byRecommendation: map<Recommendation, nat>)

  datatype BatchAnalysisResult = BatchAnalysisResult(
    totalOperations: nat,
    analyzed: nat,
    canAutoMerge: nat,
    needManualReview: nat,
    skipped: nat,
    operations: seq<OperationAnalysis>,
    summary: Summary)

  // ---------------------------------------------------------------------------
  // Conflict kinds

  /** The kind of a conflict on a given attribute. */
  function KindOf(attribute: string): Kind {
    if attribute == "dataType" then DataTypeKind
    else if attribute == "required" then RequiredKind
    else if attribute == "dbColumn" then MappingKind
    else if attribute == "description" then DescriptionKind
    else OtherKind
  }

  /** The severity table. */
  function Severity(kind: Kind): Level {
    match kind
    case DataTypeKind => High
    case RequiredKind => Medium
    case MappingKind => High
    case DescriptionKind => Low
    case OtherKind => Medium
  }

  /** The attribute-to-kind and kind-to-severity tables. */
  lemma KindTable(attribute: string)
    ensures KindOf("dataType") == DataTypeKind && KindOf("required") == RequiredKind
    ensures KindOf("dbColumn") == MappingKind && KindOf("description") == DescriptionKind
    ensures attribute !in {"dataType", "required", "dbColumn", "description"} ==> KindOf(attribute) == OtherKind
    ensures Severity(KindOf(attribute)) == High <==> attribute == "dataType" || attribute == "dbColumn"
    ensures Severity(KindOf(attribute)) == Low <==> attribute == "description"
  {
  }

  /** One conflict, flattened: its kind and its example text. */
  datatype Entry = Entry(kind: Kind, text: string)

  /** `${field.apiName}` of a field name that may be missing. */
  function NameText(apiName: Option<string>): string {
    if apiName.Some? then apiName.value else "undefined"
  }

  /** `"<apiName>: <dbValue> → <excelValue>"`. */
  function ExampleText(apiName: Option<string>, c: Conflict): string {
    NameText(apiName) + ": " + c.dbValue + " → " + c.excelValue
  }

  /** The entries of the conflicts of one field, in order. */
  function ConflictEntries(apiName: Option<string>, cs: seq<Conflict>): (es: seq<Entry>)
    ensures |es| == |cs|
    decreases |cs|
  {
    if cs == [] then []
    else
      var c := cs[|cs| - 1];
      ConflictEntries(apiName, cs[..|cs| - 1]) + [Entry(KindOf(c.field), ExampleText(apiName, c))]
  }

  /** A field takes part in the tally when it has a non-empty conflict list. */
  predicate HasConflicts(f: MergeField) {
    f.conflicts.Some? && |f.conflicts.value| > 0
  }

  function FieldEntries(f: MergeField): seq<Entry> {
    if HasConflicts(f) then ConflictEntries(f.apiName, f.conflicts.value) else []
  }

  /** The entries of all conflicts, field after field. */
  function Entries(fields: seq<MergeField>): seq<Entry>
    decreases |fields|
  {
    if fields == [] then []
    else Entries(fields[..|fields| - 1]) + FieldEntries(fields[|fields| - 1])
  }

  function Kinds(es: seq<Entry>): (ks: seq<Kind>)
    ensures |ks| == |es|
    decreases |es|
  {
    if es == [] then [] else Kinds(es[..|es| - 1]) + [es[|es| - 1].kind]
  }

  lemma {:induction false} KindsAt(es: seq<Entry>, i: nat)
    requires i < |es|
    ensures Kinds(es)[i] == es[i].kind
    decreases |es|
  {
    if i < |es| - 1 {
      KindsAt(es[..|es| - 1], i);
    }
  }

  /** The example texts of one kind, in order. */
  function TextsOf(kind: Kind, es: seq<Entry>): seq<string>
    decreases |es|
  {
    if es == [] then []
    else TextsOf(kind, es[..|es| - 1]) + (if es[|es| - 1].kind == kind then [es[|es| - 1].text] else [])
  }

  /** The examples kept for one kind: a text is added while fewer than three
      are kept. */
  function ExamplesOf(kind: Kind, es: seq<Entry>): seq<string>
    decreases |es|
  {
    if es == [] then []
    else
      var kept := ExamplesOf(kind, es[..|es| - 1]);
      kept + (if es[|es| - 1].kind == kind && |kept| < 3 then [es[|es| - 1].text] else [])
  }

  /** The examples kept are the first three texts of the kind (all of them
      when there are fewer). */
  lemma {:induction false} ExamplesAreFirstThree(kind: Kind, es: seq<Entry>)
    ensures |ExamplesOf(kind, es)| == if |TextsOf(kind, es)| < 3 then |TextsOf(kind, es)| else 3
    ensures ExamplesOf(kind, es) == TextsOf(kind, es)[..|ExamplesOf(kind, es)|]
    decreases |es|
  {
    if es != [] {
      ExamplesAreFirstThree(kind, es[..|es| - 1]);
    }
  }

  /** The tally of one kind over a list of entries. */
  function TypeOf(kind: Kind, es: seq<Entry>): ConflictType {
    ConflictType(kind, Occ(Kinds(es), kind), Severity(kind), ExamplesOf(kind, es))
  }

  function TypesFor(order: seq<Kind>, es: seq<Entry>): (cts: seq<ConflictType>)
    ensures |cts| == |order|
    decreases |order|
  {
    if order == [] then [] else TypesFor(order[..|order| - 1], es) + [TypeOf(order[|order| - 1], es)]
  }

  lemma {:induction false} TypesForAt(order: seq<Kind>, es: seq<Entry>, i: nat)
    requires i < |order|
    ensures TypesFor(order, es)[i] == TypeOf(order[i], es)
    decreases |order|
  {
    if i < |order| - 1 {
      TypesForAt(order[..|order| - 1], es, i);
    }
  }

  /** The conflict types of a merge: one per kind that occurs, in order of
      first occurrence. */
  function ConflictTypesOf(fields: seq<MergeField>): seq<ConflictType> {
    var es := Entries(fields);
    TypesFor(Dedupe(Kinds(es)), es)
  }

  /** The entry of `typeCountMap` for one kind. */
  datatype Tally = Tally(count: nat, examples: seq<string>)

  /** `typeCountMap`, with the order in which its keys were added. */
  datatype TypeCounts = TypeCounts(order: seq<Kind>, counts: map<Kind, Tally>)

  /** Counting one more conflict, with its example while fewer than three are
      kept. */
  function Record(data: Tally, text: string): Tally {
    Tally(data.count + 1, if |data.examples| < 3 then data.examples + [text] else data.examples)
  }

  function TallyFor(counts: map<Kind, Tally>, kind: Kind): Tally {
    if kind in counts then counts[kind] else Tally(0, [])
  }

  lemma MapOverwrite(m: map<Kind, Tally>, k: Kind, a: Tally, b: Tally)
    ensures m[k := a][k := b] == m[k := b]
  {
  }

  /** Recording one conflict in `typeCountMap`. */
  function RecordEntry(t: TypeCounts, e: Entry): TypeCounts {
    TypeCounts(if e.kind in t.counts then t.order else t.order + [e.kind],
               t.counts[e.kind := Record(TallyFor(t.counts, e.kind), e.text)])
  }

  /** `typeCountMap` after recording the entries one by one. */
  function TallyAfter(es: seq<Entry>): TypeCounts
    decreases |es|
  {
    if es == [] then TypeCounts([], map[]) else RecordEntry(TallyAfter(es[..|es| - 1]), es[|es| - 1])
  }

  lemma TallyAfterSnoc(es: seq<Entry>, e: Entry)
    ensures TallyAfter(es + [e]) == RecordEntry(TallyAfter(es), e)
  {
    assert (es + [e])[..|es|] == es;
  }

  /** What the counts mean: the kinds in order of first occurrence, each with
      its number of conflicts and the examples kept for it. */
  ghost predicate TallyOf(t: TypeCounts, es: seq<Entry>) {
    && t.order == Dedupe(Kinds(es))
    && (forall k :: k in t.counts <==> k in t.order)
    && TallyMap(t.counts, es)
  }

  ghost predicate TallyMap(counts: map<Kind, Tally>, es: seq<Entry>) {
    forall k :: k in counts ==> counts[k] == Tally(Occ(Kinds(es), k), ExamplesOf(k, es))
  }

  lemma KindsSnoc(es: seq<Entry>, e: Entry)
    ensures Kinds(es + [e]) == Kinds(es) + [e.kind]
  {
    assert (es + [e])[..|es|] == es;
  }

  lemma ExamplesSnoc(kind: Kind, es: seq<Entry>, e: Entry)
    ensures ExamplesOf(kind, es + [e])
         == ExamplesOf(kind, es) + (if e.kind == kind && |ExamplesOf(kind, es)| < 3 then [e.text] else [])
  {
    assert (es + [e])[..|es|] == es;
  }

  lemma TallyOrderStep(t: TypeCounts, es: seq<Entry>, e: Entry)
    requires t.order == Dedupe(Kinds(es))
    requires forall k :: k in t.counts <==> k in t.order
    ensures RecordEntry(t, e).order == Dedupe(Kinds(es + [e]))
    ensures forall k :: k in RecordEntry(t, e).counts <==> k in RecordEntry(t, e).order
  {
    KindsSnoc(es, e);
    DedupeSnoc(Kinds(es), e.kind);
  }

  lemma TallyMapStep(counts: map<Kind, Tally>, es: seq<Entry>, e: Entry)
    requires TallyMap(counts, es)
    requires e.kind !in counts ==> e.kind !in Kinds(es)
    ensures TallyMap(counts[e.kind := Record(TallyFor(counts, e.kind), e.text)], es + [e])
  {
    var ks := Kinds(es);
    KindsSnoc(es, e);
    if e.kind !in counts {
      OccAbsent(ks, e.kind);
      ExamplesNone(e.kind, es);
    }
    var counts' := counts[e.kind := Record(TallyFor(counts, e.kind), e.text)];
    forall k | k in counts'
      ensures counts'[k] == Tally(Occ(ks + [e.kind], k), ExamplesOf(k, es + [e]))
    {
      OccSnoc(ks, e.kind, k);
      ExamplesSnoc(k, es, e);
    }
  }

  lemma TallyStep(t: TypeCounts, es: seq<Entry>, e: Entry)
    requires TallyOf(t, es)
    ensures TallyOf(RecordEntry(t, e), es + [e])
  {
    TallyOrderStep(t, es, e);
    TallyMapStep(t.counts, es, e);
  }

  /** After recording a list of entries, `typeCountMap` holds each kind that
      occurs, in order of first occurrence, with its number of conflicts and
      its examples. */
  lemma {:induction false} TallyAfterCounts(es: seq<Entry>)
    ensures TallyOf(TallyAfter(es), es)
    decreases |es|
  {
    if es != [] {
      var p, e := es[..|es| - 1], es[|es| - 1];
      assert es == p + [e];
      TallyAfterCounts(p);
      TallyStep(TallyAfter(p), p, e);
      TallyAfterSnoc(p, e);
    }
  }

  lemma {:induction false} ExamplesNone(kind: Kind, es: seq<Entry>)
    requires kind !in Kinds(es)
    ensures ExamplesOf(kind, es) == []
    decreases |es|
  {
    if es != [] {
      assert Kinds(es[..|es| - 1]) == Kinds(es)[..|es| - 1];
      ExamplesNone(kind, es[..|es| - 1]);
    }
  }

  lemma EntriesStep(fields: seq<MergeField>, i: nat)
    requires i < |fields|
    ensures Entries(fields[..i + 1]) == Entries(fields[..i]) + FieldEntries(fields[i])
  {
    assert fields[..i + 1][..i] == fields[..i];
  }

  /** One more conflict of the current field. */
  lemma ConflictStep(done: seq<Entry>, apiName: Option<string>, cs: seq<Conflict>, j: nat)
    requires j < |cs|
    ensures TallyAfter(done + ConflictEntries(apiName, cs[..j + 1]))
         == RecordEntry(TallyAfter(done + ConflictEntries(apiName, cs[..j])),
                        Entry(KindOf(cs[j].field), ExampleText(apiName, cs[j])))
  {
    assert cs[..j + 1][..j] == cs[..j];
    var e := Entry(KindOf(cs[j].field), ExampleText(apiName, cs[j]));
    assert done + ConflictEntries(apiName, cs[..j + 1]) == done + ConflictEntries(apiName, cs[..j]) + [e];
    TallyAfterSnoc(done + ConflictEntries(apiName, cs[..j]), e);
  }

  /** The `Object.entries(typeCountMap).map(...)` at the end of
      `analyzeConflictTypes`: one conflict type per key, in key order, with
      the severity of its kind. */
  function ToConflictTypes(order: seq<Kind>, counts: map<Kind, Tally>): (cts: seq<ConflictType>)
    requires forall k :: k in order ==> k in counts
    ensures |cts| == |order|
    decreases |order|
  {
    if order == [] then []
    else
      var kind := order[|order| - 1];
      ToConflictTypes(order[..|order| - 1], counts) + [ConflictType(kind, counts[kind].count, Severity(kind), counts[kind].examples)]
  }

  lemma {:induction false} ToConflictTypesOfTally(order: seq<Kind>, counts: map<Kind, Tally>, es: seq<Entry>)
    requires forall k :: k in order ==> k in counts
    requires TallyMap(counts, es)
    ensures ToConflictTypes(order, counts) == TypesFor(order, es)
    decreases |order|
  {
    if order != [] {
      var p := order[..|order| - 1];
      assert forall k :: k in p ==> k in order;
      ToConflictTypesOfTally(p, counts, es);
    }
  }

  /** `analyzeConflictTypes`. */
  method AnalyzeConflictTypes(mergeResult: MergeResult) returns (conflictTypes: seq<ConflictType>)
    ensures conflictTypes == ConflictTypesOf(mergeResult.fields)
  {
    var fields := mergeResult.fields;
    // `typeCountMap` and the order in which its keys were added
    var typeCountMap: map<Kind, Tally> := map[];
    var typeOrder: seq<Kind> := [];
    for i := 0 to |fields|
      invariant TypeCounts(typeOrder, typeCountMap) == TallyAfter(Entries(fields[..i]))
    {
      EntriesStep(fields, i);
      var field := fields[i];
      if field.conflicts.Some? && |field.conflicts.value| > 0 {
        var cs := field.conflicts.value;
        ghost var done := Entries(fields[..i]);
        assert done + ConflictEntries(field.apiName, cs[..0]) == done;
        for j := 0 to |cs|
          invariant TypeCounts(typeOrder, typeCountMap) == TallyAfter(done + ConflictEntries(field.apiName, cs[..j]))
        {
          ConflictStep(done, field.apiName, cs, j);
          var conflict := cs[j];
          var conflictType := KindOf(conflict.field);
          ghost var before := typeCountMap;
          if conflictType !in typeCountMap {
            typeOrder := typeOrder + [conflictType];
            typeCountMap := typeCountMap[conflictType := Tally(0, [])];
          }
          var data := Record(typeCountMap[conflictType], ExampleText(field.apiName, conflict));
          MapOverwrite(before, conflictType, Tally(0, []), data);
          typeCountMap := typeCountMap[conflictType := data];
        }
        assert cs[..|cs|] == cs;
      } else {
        assert Entries(fields[..i + 1]) == Entries(fields[..i]);
      }
    }
    assert fields[..|fields|] == fields;

    TallyAfterCounts(Entries(fields));
    ToConflictTypesOfTally(typeOrder, typeCountMap, Entries(fields));
    conflictTypes := ToConflictTypes(typeOrder, typeCountMap);
  }

  // ---------------------------------------------------------------------------
  // Properties of the tally

  function SumCounts(cts: seq<ConflictType>): nat
    decreases |cts|
  {
    if cts == [] then 0 else SumCounts(cts[..|cts| - 1]) + cts[|cts| - 1].count
  }

  lemma {:induction false} SumCountsTypes(order: seq<Kind>, es: seq<Entry>)
    ensures SumCounts(TypesFor(order, es)) == SumOcc(order, Kinds(es))
    decreases |order|
  {
    if order != [] {
      var p := order[..|order| - 1];
      SumCountsTypes(p, es);
      assert TypesFor(order, es)[..|order| - 1] == TypesFor(p, es);
    }
  }

  /** There are as many texts of a kind as conflicts of that kind. */
  lemma {:induction false} TextsOfCount(kind: Kind, es: seq<Entry>)
    ensures |TextsOf(kind, es)| == Occ(Kinds(es), kind)
    decreases |es|
  {
    if es != [] {
      assert Kinds(es)[..|es| - 1] == Kinds(es[..|es| - 1]);
      TextsOfCount(kind, es[..|es| - 1]);
    }
  }

  /** The tally of a kind that occurs: counted at least once, with the first
      three of its examples, or all of them when there are fewer. */
  lemma TypeOfShape(kind: Kind, es: seq<Entry>)
    requires kind in Kinds(es)
    ensures TypeOf(kind, es).count == Occ(Kinds(es), kind) > 0
    ensures |TypeOf(kind, es).examples| == if Occ(Kinds(es), kind) < 3 then Occ(Kinds(es), kind) else 3
    ensures |TypeOf(kind, es).examples| <= |TextsOf(kind, es)|
    ensures TypeOf(kind, es).examples == TextsOf(kind, es)[..|TypeOf(kind, es).examples|]
  {
    OccPositive(Kinds(es), kind);
    ExamplesAreFirstThree(kind, es);
    TextsOfCount(kind, es);
  }

  /** There is one conflict type per kind of conflict that occurs, and no kind
      twice. */
  lemma ConflictTypesKinds(fields: seq<MergeField>)
    ensures var cts := ConflictTypesOf(fields);
            && (forall i, j :: 0 <= i < j < |cts| ==> cts[i].kind != cts[j].kind)
            && (forall k :: k in Kinds(Entries(fields)) <==> exists i :: 0 <= i < |cts| && cts[i].kind == k)
  {
    var es := Entries(fields);
    var order := Dedupe(Kinds(es));
    var cts := ConflictTypesOf(fields);
    forall i | 0 <= i < |cts| ensures cts[i].kind == order[i] {
      TypesForAt(order, es, i);
    }
    forall k | k in Kinds(es)
      ensures exists i :: 0 <= i < |cts| && cts[i].kind == k
    {
      var i :| 0 <= i < |order| && order[i] == k;
      assert cts[i].kind == k;
    }
  }

  /** Each conflict type counts the conflicts of its kind, carries the kind's
      severity and keeps the first three examples of the kind. */
  lemma ConflictTypeCounts(fields: seq<MergeField>, i: nat)
    requires i < |ConflictTypesOf(fields)|
    ensures var es := Entries(fields);
            var ct := ConflictTypesOf(fields)[i];
            && ct.count == Occ(Kinds(es), ct.kind) > 0
            && ct.severity == Severity(ct.kind)
            && |ct.examples| == (if ct.count < 3 then ct.count else 3)
            && |ct.examples| <= |TextsOf(ct.kind, es)|
            && ct.examples == TextsOf(ct.kind, es)[..|ct.examples|]
  {
    var es := Entries(fields);
    var order := Dedupe(Kinds(es));
    TypesForAt(order, es, i);
    assert order[i] in order;
    TypeOfShape(order[i], es);
  }

  /** The counts of the conflict types add up to the number of conflicts. */
  lemma ConflictTypesTotal(fields: seq<MergeField>)
    ensures SumCounts(ConflictTypesOf(fields)) == |Entries(fields)|
  {
    var es := Entries(fields);
    SumCountsTypes(Dedupe(Kinds(es)), es);
    SumOccDedupe(Kinds(es));
  }

  // ---------------------------------------------------------------------------
  // Risk and recommendation

  predicate HasHighSeverity(cts: seq<ConflictType>) {
    exists i :: 0 <= i < |cts| && cts[i].severity == High
  }

  /** `assessMergeRisk`: low without conflict types; high with a high-severity
      type or more than ten conflicts; medium otherwise. */
  function AssessMergeRisk(conflictTypes: seq<ConflictType>): (r: Level)
    ensures r == Low <==> conflictTypes == []
    ensures r == High <==> conflictTypes != [] && (HasHighSeverity(conflictTypes) || SumCounts(conflictTypes) > 10)
  {
    if |conflictTypes| == 0 then Low
    else if HasHighSeverity(conflictTypes) then High
    else if SumCounts(conflictTypes) > 10 then High
    else if |conflictTypes| > 3 then Medium
    else Medium
  }

  /** `getRecommendation`: auto-merge at low risk with no conflict types or
      only a description one, manual review otherwise; never skip. */
  function GetRecommendation(risk: Level, conflictTypes: seq<ConflictType>): (r: Recommendation)
    ensures r != Skip
    ensures r == AutoMerge <==>
      risk == Low && (conflictTypes == [] || (|conflictTypes| == 1 && conflictTypes[0].kind == DescriptionKind))
  {
    if risk == Low && |conflictTypes| == 0 then AutoMerge
    else if risk == Low && |conflictTypes| == 1 && conflictTypes[0].kind == DescriptionKind then AutoMerge
    else ManualReview
  }

  /** Risk is low only without conflicts, so the description-only auto-merge
      branch is never taken: auto-merge means no conflict types at all. */
  lemma DescriptionBranchUnreachable(conflictTypes: seq<ConflictType>)
    ensures GetRecommendation(AssessMergeRisk(conflictTypes), conflictTypes) == AutoMerge <==> conflictTypes == []
  {
  }

  /** Some conflict is of a high-severity kind. */
  predicate HighSeverityEntry(es: seq<Entry>) {
    exists i :: 0 <= i < |es| && Severity(es[i].kind) == High
  }

  lemma NoTypesNoConflicts(fields: seq<MergeField>)
    ensures ConflictTypesOf(fields) == [] <==> Entries(fields) == []
  {
    var es := Entries(fields);
    if es != [] {
      assert Kinds(es)[0] in Kinds(es);
      assert Kinds(es)[0] in Dedupe(Kinds(es));
    }
  }

  lemma HighSeverityTypes(fields: seq<MergeField>)
    ensures HasHighSeverity(ConflictTypesOf(fields)) <==> HighSeverityEntry(Entries(fields))
  {
    var es := Entries(fields);
    var order := Dedupe(Kinds(es));
    var cts := ConflictTypesOf(fields);
    if HighSeverityEntry(es) {
      var i :| 0 <= i < |es| && Severity(es[i].kind) == High;
      var k := es[i].kind;
      KindsAt(es, i);
      assert k in order;
      var j :| 0 <= j < |order| && order[j] == k;
      TypesForAt(order, es, j);
    }
    if HasHighSeverity(cts) {
      var j :| 0 <= j < |cts| && cts[j].severity == High;
      var k := order[j];
      TypesForAt(order, es, j);
      assert k in Kinds(es);
      var i :| 0 <= i < |Kinds(es)| && Kinds(es)[i] == k;
      KindsAt(es, i);
    }
  }

  /** The risk of a merge in terms of its conflicts: low exactly when there
      are none; high exactly when one of them is of a high-severity kind or
      there are more than ten. */
  lemma RiskOfConflicts(fields: seq<MergeField>)
    ensures var es := Entries(fields);
            var risk := AssessMergeRisk(ConflictTypesOf(fields));
            && (risk == Low <==> es == [])
            && (risk == High <==> es != [] && (HighSeverityEntry(es) || |es| > 10))
  {
    NoTypesNoConflicts(fields);
    HighSeverityTypes(fields);
    ConflictTypesTotal(fields);
  }

  /** A conflict on the data type or the column always makes the risk high. */
  lemma HighKindMakesRiskHigh(fields: seq<MergeField>, f: MergeField)
    requires HasConflicts(f)
    requires exists c :: c in f.conflicts.value && (c.field == "dataType" || c.field == "dbColumn")
    ensures AssessMergeRisk(ConflictTypesOf(fields + [f])) == High
  {
    var all := fields + [f];
    assert all[..|all| - 1] == fields;
    var cs := f.conflicts.value;
    var c :| c in cs && (c.field == "dataType" || c.field == "dbColumn");
    var j :| 0 <= j < |cs| && cs[j] == c;
    var fe := ConflictEntries(f.apiName, cs);
    ConflictEntriesAt(f.apiName, cs, j);
    assert Entries(all) == Entries(fields) + fe;
    HighSeverityAppend(Entries(fields), fe, j);
    RiskOfConflicts(all);
  }

  lemma HighSeverityAppend(done: seq<Entry>, more: seq<Entry>, j: nat)
    requires j < |more| && Severity(more[j].kind) == High
    ensures HighSeverityEntry(done + more)
  {
    assert (done + more)[|done| + j] == more[j];
  }

  lemma {:induction false} ConflictEntriesAt(apiName: Option<string>, cs: seq<Conflict>, j: nat)
    requires j < |cs|
    ensures ConflictEntries(apiName, cs)[j] == Entry(KindOf(cs[j].field), ExampleText(apiName, cs[j]))
    decreases |cs|
  {
    if j < |cs| - 1 {
      ConflictEntriesAt(apiName, cs[..|cs| - 1], j);
    }
  }

  // ---------------------------------------------------------------------------
  // One operation

  const MissingExcel: string := "缺少 Excel 檔案"
  const MissingDatabase: string := "缺少資料庫文檔"
  const AnalysisErrorPrefix: string := "分析錯誤: "

  /** The analysis of a skipped operation. */
  function Skipped(operationCode: string, hasExcel: bool, hasDatabase: bool, excelFileCount: nat, reason: string): (a: OperationAnalysis)
    ensures a.recommendation == Skip && a.mergeRisk == High && !a.canAutoMerge
    ensures a.fieldCount == 0 && a.conflictCount == 0 && a.conflictTypes == []
    ensures a.skipReason == Some(reason)
  {
    OperationAnalysis(operationCode, hasExcel, hasDatabase, excelFileCount, 0, 0, [], false, High, Skip, Some(reason))
  }

  /** What `analyzeOperation` returns. */
  function AnalysisOf(input: OperationInput): OperationAnalysis {
    var operationCode := input.operationCode;
    match input.probe
    case Fault(message) => Skipped(operationCode, false, false, 0, AnalysisErrorPrefix + message)
    case Sources(workbooks, hasDatabase, existing) =>
      var hasExcel := |workbooks| > 0;
      if !hasExcel || !hasDatabase then
        Skipped(operationCode, hasExcel, hasDatabase, |workbooks|, if !hasExcel then MissingExcel else MissingDatabase)
      else
        var mergeResult := MergeResultOf(operationCode, existing, workbooks);
        var conflictTypes := ConflictTypesOf(mergeResult.fields);
        var mergeRisk := AssessMergeRisk(conflictTypes);
        OperationAnalysis(operationCode, hasExcel, hasDatabase, |workbooks|,
          mergeResult.totalFields, mergeResult.conflicts, conflictTypes,
          mergeResult.conflicts == 0, mergeRisk, GetRecommendation(mergeRisk, conflictTypes), None)
  }

  /** `analyzeOperation`, given what reading the operation's sources produced. */
  method AnalyzeOperation(operationCode: string, probe: Probe) returns (analysis: OperationAnalysis)
    ensures analysis == AnalysisOf(OperationInput(operationCode, probe))
  {
    if probe.Fault? {
      return OperationAnalysis(operationCode, false, false, 0, 0, 0, [], false, High, Skip,
        Some(AnalysisErrorPrefix + probe.message));
    }
    var excelWorkbooks := probe.workbooks;
    var hasExcel := |excelWorkbooks| > 0;
    var hasDatabase := probe.hasDatabase;
    if !hasExcel || !hasDatabase {
      return OperationAnalysis(operationCode, hasExcel, hasDatabase, |excelWorkbooks|, 0, 0, [], false, High, Skip,
        Some(if !hasExcel then MissingExcel else MissingDatabase));
    }
    var mergeResult := MergeFields(operationCode, probe.existing, excelWorkbooks);
    var conflictTypes := AnalyzeConflictTypes(mergeResult);
    var mergeRisk := AssessMergeRisk(conflictTypes);
    var recommendation := GetRecommendation(mergeRisk, conflictTypes);
    analysis := OperationAnalysis(operationCode, hasExcel, hasDatabase, |excelWorkbooks|,
      mergeResult.totalFields, mergeResult.conflicts, conflictTypes,
      mergeResult.conflicts == 0, mergeRisk, recommendation, None);
  }

  /** A missing source or an error skips the operation at high risk with no
      fields and no conflicts; a missing workbook is reported before a missing
      document, and an error carries its message. */
  lemma SkipCases(input: OperationInput)
    ensures var a := AnalysisOf(input);
      match input.probe
      case Fault(message) =>
        a.recommendation == Skip && a.skipReason == Some(AnalysisErrorPrefix + message)
        && !a.hasExcel && !a.hasDatabase && a.excelFileCount == 0
      case Sources(workbooks, hasDatabase, _) =>
        && (workbooks == [] ==> a.recommendation == Skip && a.skipReason == Some(MissingExcel))
        && (workbooks != [] && !hasDatabase ==> a.recommendation == Skip && a.skipReason == Some(MissingDatabase))
        && (workbooks != [] && hasDatabase ==> a.recommendation != Skip && a.skipReason.None?)
    ensures AnalysisOf(input).recommendation == Skip ==>
      AnalysisOf(input).mergeRisk == High && AnalysisOf(input).fieldCount == 0
      && AnalysisOf(input).conflictCount == 0 && AnalysisOf(input).conflictTypes == []
      && !AnalysisOf(input).canAutoMerge
  {
  }

  /** With well-formed conflict lists every conflict is of a high-severity
      kind, and there are conflicts exactly when some field has them. */
  lemma {:induction false} WellFormedEntries(fields: seq<MergeField>)
    requires WellFormedConflicts(fields)
    ensures forall i :: 0 <= i < |Entries(fields)| ==> Severity(Entries(fields)[i].kind) == High
    ensures Entries(fields) == [] <==> NumConflicted(fields) == 0
    decreases |fields|
  {
    if fields != [] {
      var p := fields[..|fields| - 1];
      var f := fields[|fields| - 1];
      assert WellFormedConflicts(p) by {
        forall i | 0 <= i < |p| ensures p[i] == fields[i] { }
      }
      WellFormedEntries(p);
      if HasConflicts(f) {
        var cs := f.conflicts.value;
        forall j | 0 <= j < |cs| ensures Severity(ConflictEntries(f.apiName, cs)[j].kind) == High {
          ConflictEntriesAt(f.apiName, cs, j);
          assert cs[j] in cs;
        }
      }
    }
  }

  /** Through `analyzeOperation` the risk is never medium, and an analysed
      operation is recommended for auto-merge exactly when it can be
      auto-merged, that is when no field has conflicts. */
  lemma AnalysisVerdicts(input: OperationInput)
    ensures AnalysisOf(input).mergeRisk != Medium
    ensures AnalysisOf(input).recommendation != Skip ==>
      (AnalysisOf(input).canAutoMerge <==> AnalysisOf(input).recommendation == AutoMerge)
    ensures AnalysisOf(input).recommendation != Skip ==>
      (AnalysisOf(input).mergeRisk == Low <==> AnalysisOf(input).conflictCount == 0)
  {
    match input.probe
    case Fault(_) =>
    case Sources(workbooks, hasDatabase, existing) =>
      if |workbooks| > 0 && hasDatabase {
        var operationCode := input.operationCode;
        var r := MergeResultOf(operationCode, existing, workbooks);
        var dbFields := DbFieldsOf(existing);
        var excelFields := AllExcelFields(workbooks);
        MergeAllWellFormed(MergeKeys(dbFields, excelFields), IndexBy(dbFields, DbKey), IndexBy(excelFields, ExcelKey));
        WellFormedEntries(r.fields);
        MergeCounts(operationCode, existing, workbooks);
        RiskOfConflicts(r.fields);
        var es := Entries(r.fields);
        if es != [] {
          assert Severity(es[0].kind) == High;
        }
      }
  }

  // ---------------------------------------------------------------------------
  // A batch

  /** The module of an operation code: its leading run of capitals (the
      match of `/^([A-Z]+)/`), `OTHER` when it has none. */
  function ModuleOf(operationCode: string): string {
    var prefix := ExcelImport.UpperRun(operationCode);
    if prefix != "" then prefix else "OTHER"
  }

  /** A module is never empty. A code that does not start with a capital
      belongs to `OTHER`; one that does belongs to the longest run of
      capitals it starts with. */
  lemma ModuleOfPrefix(operationCode: string)
    ensures ModuleOf(operationCode) != ""
    ensures operationCode == [] || !ExcelImport.IsUpper(operationCode[0]) ==> ModuleOf(operationCode) == "OTHER"
    ensures operationCode != [] && ExcelImport.IsUpper(operationCode[0]) ==>
              var m := ModuleOf(operationCode);
              && |m| <= |operationCode| && m == operationCode[..|m|] && ExcelImport.AllUpper(m)
              && (|m| == |operationCode| || !ExcelImport.IsUpper(operationCode[|m|]))
  {
    var prefix := ExcelImport.UpperRun(operationCode);
    ExcelImport.UpperRunShape(operationCode);
    if operationCode != [] && ExcelImport.IsUpper(operationCode[0]) {
      assert prefix != "";
    }
  }

  function Modules(results: seq<OperationAnalysis>): (ms: seq<string>)
    ensures |ms| == |results|
    decreases |results|
  {
    if results == [] then [] else Modules(results[..|results| - 1]) + [ModuleOf(results[|results| - 1].operationCode)]
  }

  function Risks(results: seq<OperationAnalysis>): (rs: seq<Level>)
    ensures |rs| == |results|
    decreases |results|
  {
    if results == [] then [] else Risks(results[..|results| - 1]) + [results[|results| - 1].mergeRisk]
  }

  function Recommendations(results: seq<OperationAnalysis>): (rs: seq<Recommendation>)
    ensures |rs| == |results|
    decreases |results|
  {
    if results == [] then [] else Recommendations(results[..|results| - 1]) + [results[|results| - 1].recommendation]
  }

  lemma LevelKey(l: Level)
    ensures l == Low || l == Medium || l == High
  {
    match l
    case Low =>
    case Medium =>
    case High =>
  }

  lemma RecommendationKey(r: Recommendation)
    ensures r == AutoMerge || r == ManualReview || r == Skip
  {
    match r
    case AutoMerge =>
    case ManualReview =>
    case Skip =>
  }

  lemma ResultsStep(results: seq<OperationAnalysis>, i: nat)
    requires i < |results|
    ensures Modules(results[..i + 1]) == Modules(results[..i]) + [ModuleOf(results[i].operationCode)]
    ensures Risks(results[..i + 1]) == Risks(results[..i]) + [results[i].mergeRisk]
    ensures Recommendations(results[..i + 1]) == Recommendations(results[..i]) + [results[i].recommendation]
  {
    assert results[..i + 1][..i] == results[..i];
  }

  /** `generateSummary`: each counter holds, under each key, the number of
      results with that module, risk or recommendation; `byRisk` and
      `byRecommendation` keep the three keys they start with, `byModule` has a
      key for each module that occurs, in order of first occurrence. */
  method GenerateSummary(results: seq<OperationAnalysis>) returns (summary: Summary)
    ensures summary.moduleOrder == Dedupe(Modules(results))
    ensures Tallies(summary.byModule, Modules(results))
    ensures Low in summary.byRisk && Medium in summary.byRisk && High in summary.byRisk
    ensures Counts(summary.byRisk, Risks(results))
    ensures AutoMerge in summary.byRecommendation && ManualReview in summary.byRecommendation
    ensures Skip in summary.byRecommendation
    ensures Counts(summary.byRecommendation, Recommendations(results))
  {
    var byModule: map<string, nat> := map[];
    var moduleOrder: seq<string> := [];
    var byRisk: map<Level, nat> := map[Low := 0, Medium := 0, High := 0];
    var byRecommendation: map<Recommendation, nat> := map[AutoMerge := 0, ManualReview := 0, Skip := 0];
    for i := 0 to |results|
      invariant Summarises(moduleOrder, byModule, byRisk, byRecommendation, results[..i])
    {
      ghost var before := (moduleOrder, byModule, byRisk, byRecommendation);
      SummaryKeys(moduleOrder, byModule, byRisk, byRecommendation, results, i);
      var result := results[i];
      var moduleName := ModuleOf(result.operationCode);
      if moduleName !in byModule {
        moduleOrder := moduleOrder + [moduleName];
      }
      byModule := byModule[moduleName := (if moduleName in byModule then byModule[moduleName] else 0) + 1];
      byRisk := byRisk[result.mergeRisk := byRisk[result.mergeRisk] + 1];
      byRecommendation := byRecommendation[result.recommendation := byRecommendation[result.recommendation] + 1];
      SummaryStep(before.0, before.1, before.2, before.3, moduleOrder, byModule, byRisk, byRecommendation, results, i);
    }
    assert results[..|results|] == results;
    summary := Summary(moduleOrder, byModule, byRisk, byRecommendation);
    CountAllTallies(Modules(results));
  }

  /** The counters of `generateSummary` after the results `done`. */
  ghost predicate Summarises(moduleOrder: seq<string>, byModule: map<string, nat>, byRisk: map<Level, nat>,
                             byRecommendation: map<Recommendation, nat>, done: seq<OperationAnalysis>) {
    && moduleOrder == Dedupe(Modules(done))
    && byModule == CountAll(Modules(done), map[])
    && Low in byRisk && Medium in byRisk && High in byRisk && Counts(byRisk, Risks(done))
    && AutoMerge in byRecommendation && ManualReview in byRecommendation && Skip in byRecommendation
    && Counts(byRecommendation, Recommendations(done))
  }

  lemma SummaryKeys(moduleOrder: seq<string>, byModule: map<string, nat>, byRisk: map<Level, nat>,
                    byRecommendation: map<Recommendation, nat>, results: seq<OperationAnalysis>, i: nat)
    requires i < |results|
    requires Summarises(moduleOrder, byModule, byRisk, byRecommendation, results[..i])
    ensures results[i].mergeRisk in byRisk && results[i].recommendation in byRecommendation
  {
    LevelKey(results[i].mergeRisk);
    RecommendationKey(results[i].recommendation);
  }

  /** One iteration of `generateSummary` counts one more result. */
  lemma SummaryStep(moduleOrder: seq<string>, byModule: map<string, nat>, byRisk: map<Level, nat>,
                    byRecommendation: map<Recommendation, nat>,
                    moduleOrder': seq<string>, byModule': map<string, nat>, byRisk': map<Level, nat>,
                    byRecommendation': map<Recommendation, nat>, results: seq<OperationAnalysis>, i: nat)
    requires i < |results|
    requires Summarises(moduleOrder, byModule, byRisk, byRecommendation, results[..i])
    requires var moduleName := ModuleOf(results[i].operationCode);
             && moduleOrder' == (if moduleName !in byModule then moduleOrder + [moduleName] else moduleOrder)
             && byModule' == byModule[moduleName := (if moduleName in byModule then byModule[moduleName] else 0) + 1]
    requires var risk := results[i].mergeRisk;
             risk in byRisk && byRisk' == byRisk[risk := byRisk[risk] + 1]
    requires var recommendation := results[i].recommendation;
             recommendation in byRecommendation
             && byRecommendation' == byRecommendation[recommendation := byRecommendation[recommendation] + 1]
    ensures Summarises(moduleOrder', byModule', byRisk', byRecommendation', results[..i + 1])
  {
    ModulesPart(moduleOrder, byModule, moduleOrder', byModule', results, i);
    RisksPart(byRisk, byRisk', results, i);
    RecommendationsPart(byRecommendation, byRecommendation', results, i);
  }

  lemma ModulesPart(moduleOrder: seq<string>, byModule: map<string, nat>,
                    moduleOrder': seq<string>, byModule': map<string, nat>, results: seq<OperationAnalysis>, i: nat)
    requires i < |results|
    requires moduleOrder == Dedupe(Modules(results[..i])) && byModule == CountAll(Modules(results[..i]), map[])
    requires var moduleName := ModuleOf(results[i].operationCode);
             && moduleOrder' == (if moduleName !in byModule then moduleOrder + [moduleName] else moduleOrder)
             && byModule' == byModule[moduleName := (if moduleName in byModule then byModule[moduleName] else 0) + 1]
    ensures moduleOrder' == Dedupe(Modules(results[..i + 1])) && byModule' == CountAll(Modules(results[..i + 1]), map[])
  {
    ResultsStep(results, i);
    CountAllDedupeSnoc(Modules(results[..i]), ModuleOf(results[i].operationCode));
  }

  lemma RisksPart(byRisk: map<Level, nat>, byRisk': map<Level, nat>, results: seq<OperationAnalysis>, i: nat)
    requires i < |results|
    requires Low in byRisk && Medium in byRisk && High in byRisk && Counts(byRisk, Risks(results[..i]))
    requires var risk := results[i].mergeRisk;
             risk in byRisk && byRisk' == byRisk[risk := byRisk[risk] + 1]
    ensures Low in byRisk' && Medium in byRisk' && High in byRisk' && Counts(byRisk', Risks(results[..i + 1]))
  {
    ResultsStep(results, i);
    CountsSnoc(byRisk, Risks(results[..i]), results[i].mergeRisk);
  }

  lemma RecommendationsPart(byRecommendation: map<Recommendation, nat>, byRecommendation': map<Recommendation, nat>,
                            results: seq<OperationAnalysis>, i: nat)
    requires i < |results|
    requires AutoMerge in byRecommendation && ManualReview in byRecommendation && Skip in byRecommendation
    requires Counts(byRecommendation, Recommendations(results[..i]))
    requires var recommendation := results[i].recommendation;
             recommendation in byRecommendation
             && byRecommendation' == byRecommendation[recommendation := byRecommendation[recommendation] + 1]
    ensures AutoMerge in byRecommendation' && ManualReview in byRecommendation' && Skip in byRecommendation'
    ensures Counts(byRecommendation', Recommendations(results[..i + 1]))
  {
    ResultsStep(results, i);
    CountsSnoc(byRecommendation, Recommendations(results[..i]), results[i].recommendation);
  }

  /** The module counts of a summary add up to the number of results. */
  lemma ModuleTotal(results: seq<OperationAnalysis>)
    ensures SumOcc(Dedupe(Modules(results)), Modules(results)) == |results|
  {
    SumOccDedupe(Modules(results));
  }

  /** Every risk level is one of the three keys of `byRisk`. */
  lemma RiskTotal(risks: seq<Level>)
    ensures Occ(risks, Low) + Occ(risks, Medium) + Occ(risks, High) == |risks|
  {
    forall i | 0 <= i < |risks| ensures risks[i] == Low || risks[i] == Medium || risks[i] == High {
      match risks[i]
      case Low =>
      case Medium =>
      case High =>
    }
    OccOfThree(risks, Low, Medium, High);
  }

  /** Every recommendation is one of the three keys of `byRecommendation`. */
  lemma RecommendationTotal(recommendations: seq<Recommendation>)
    ensures Occ(recommendations, AutoMerge) + Occ(recommendations, ManualReview) + Occ(recommendations, Skip)
         == |recommendations|
  {
    forall i | 0 <= i < |recommendations|
      ensures recommendations[i] == AutoMerge || recommendations[i] == ManualReview || recommendations[i] == Skip
    {
      match recommendations[i]
      case AutoMerge =>
      case ManualReview =>
      case Skip =>
    }
    OccOfThree(recommendations, AutoMerge, ManualReview, Skip);
  }

  function AnalysesOf(inputs: seq<OperationInput>): (rs: seq<OperationAnalysis>)
    ensures |rs| == |inputs|
    decreases |inputs|
  {
    if inputs == [] then [] else AnalysesOf(inputs[..|inputs| - 1]) + [AnalysisOf(inputs[|inputs| - 1])]
  }

  /** Each operation is analysed on its own: the analysis at a position is
      that of the input at the same position. */
  lemma {:induction false} AnalysesAt(inputs: seq<OperationInput>, i: nat)
    requires i < |inputs|
    ensures AnalysesOf(inputs)[i] == AnalysisOf(inputs[i])
    decreases |inputs|
  {
    if i < |inputs| - 1 {
      AnalysesAt(inputs[..|inputs| - 1], i);
    }
  }

  /** `analyzeBatch`: every operation is analysed, in input order, and each
      analysis is counted under exactly one recommendation. */
  method AnalyzeBatch(inputs: seq<OperationInput>) returns (batch: BatchAnalysisResult)
    ensures batch.operations == AnalysesOf(inputs)
    ensures batch.totalOperations == batch.analyzed == |inputs|
    ensures batch.canAutoMerge == Occ(Recommendations(batch.operations), AutoMerge)
    ensures batch.needManualReview == Occ(Recommendations(batch.operations), ManualReview)
    ensures batch.skipped == Occ(Recommendations(batch.operations), Skip)
    ensures batch.canAutoMerge + batch.needManualReview + batch.skipped == batch.analyzed
    ensures batch.summary.moduleOrder == Dedupe(Modules(batch.operations))
    ensures Tallies(batch.summary.byModule, Modules(batch.operations))
    ensures Counts(batch.summary.byRisk, Risks(batch.operations))
    ensures Counts(batch.summary.byRecommendation, Recommendations(batch.operations))
  {
    var results: seq<OperationAnalysis> := [];
    var analyzed := 0;
    for i := 0 to |inputs|
      invariant results == AnalysesOf(inputs[..i])
      invariant analyzed == i
    {
      assert inputs[..i + 1][..i] == inputs[..i];
      var analysis := AnalyzeOperation(inputs[i].operationCode, inputs[i].probe);
      results := results + [analysis];
      analyzed := analyzed + 1;
    }
    assert inputs[..|inputs|] == inputs;

    var summary := GenerateSummary(results);
    RecommendationTotal(Recommendations(results));
    batch := BatchAnalysisResult(
      |inputs|,
      |results|,
      Occ(Recommendations(results), AutoMerge),
      Occ(Recommendations(results), ManualReview),
      Occ(Recommendations(results), Skip),
      results,
      summary);
  }
}
