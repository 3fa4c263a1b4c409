/** Compacting an advisor context to a byte ceiling, stage by stage. */
module ContextCompaction {
  import opened Wrappers
  import opened Utf16Text
  import opened TextClean
  import opened ContextValues

  /** The size in bytes of a value's JSON text. */
  type Measure = Value -> nat

  // ----- reading values the way the language does

  function Get(v: Value, key: Field): Value {
    if v.Obj? then Lookup(v.props, key) else Missing
  }

  function Lookup(props: seq<Prop>, key: Field): Value {
    if props == [] then Missing
    else if props[|props| - 1].key == key then props[|props| - 1].value
    else Lookup(props[..|props| - 1], key)
  }

  function Named(v: Value, name: string): Value { Get(v, Other(name)) }

  predicate Truthy(v: Value) {
    match v
    case Missing => false
    case Null => false
    case Number(n) => n != 0
    case Bool(b) => b
    case Str(s) => s != []
    case _ => true
  }

  function OrNull(v: Value): Value { if Truthy(v) then v else Null }

  /** `String(value ?? "")` for text; other scalars count as blank here. */
  function Cleaned(v: Value, max: nat): Value {
    Str(Clean(if v.Str? then v.s else [], max))
  }

  /** The rows of `value || []`. */
  function Rows(v: Value, n: nat): seq<Value> {
    if v.Arr? then Take(v.items, n) else []
  }

  /** What `{...value}` copies. */
  function Spread(v: Value): seq<Prop> {
    if v.Obj? then v.props else []
  }

  function Override(props: seq<Prop>, p: Prop): seq<Prop> {
    if props == [] then [p]
    else if props[0].key == p.key then [p] + props[1..]
    else [props[0]] + Override(props[1..], p)
  }

  function With(props: seq<Prop>, changes: seq<Prop>): seq<Prop>
    decreases |changes|
  {
    if changes == [] then props else With(Override(props, changes[0]), changes[1..])
  }

  function P(name: string, value: Value): Prop { Prop(Other(name), value) }

  function RefOf(v: Value): Prop { Prop(Ref, Get(v, Ref)) }

  function Each(rows: seq<Value>, f: Value -> Value): seq<Value> {
    seq(|rows|, i requires 0 <= i < |rows| => f(rows[i]))
  }

  // ----- parts of a context

  datatype Spec = Spec(
    depth: nat, nestedArrayLimit: nat, keyLimit: nat, stringLimit: nat, receivables: nat, propertyItems: nat,
    obligations: nat, risks: nat, controls: nat, tenders: nat, sources: nat, dropSourceUrls: bool)

  function VerificationStatus(x: Value): Value {
    var cleaned := Cleaned(Named(x, "verificationStatus"), 40);
    if Truthy(cleaned) then cleaned else Str(Letters("unknown"))
  }

  function SourceHeadline(x: Value, stringLimit: nat): seq<Prop> {
    [RefOf(x), P("authority", Cleaned(Named(x, "authority"), stringLimit)), P("title", Cleaned(Named(x, "title"), stringLimit))]
  }

  function CompactSource(x: Value, dropUrl: bool, stringLimit: nat): Value {
    if !Truthy(x) then Null
    else
      Obj(SourceHeadline(x, stringLimit)
          + (if dropUrl then [] else [P("url", Cleaned(Named(x, "url"), 180))])
          + [P("effectiveDate", OrNull(Named(x, "effectiveDate"))), P("verificationStatus", VerificationStatus(x))])
  }

  /** `filter(Boolean)`. */
  function Present(items: seq<Value>): seq<Value> {
    if items == [] then []
    else
      Present(items[..|items| - 1]) + (if Truthy(items[|items| - 1]) then [items[|items| - 1]] else [])
  }

  function CompactFinance(finance: Value, receivables: nat): Value {
    if !Truthy(finance) then Null
    else
      Obj(Override(Spread(finance),
                   P("topReceivables", Arr(Each(Rows(Named(finance, "topReceivables"), receivables), ReceivableRow)))))
  }

  function ReceivableRow(row: Value): Value {
    Obj(Override(Spread(row), P("customerName", Cleaned(Named(row, "customerName"), 100))))
  }

  function PropertyItem(row: Value, nested: Limits): Value {
    var valuation := Named(row, "latestProfessionalValuation");
    Obj([P("name", Cleaned(Named(row, "name"), 100)), P("type", Cleaned(Named(row, "type"), 40)),
         P("status", Cleaned(Named(row, "status"), 40)), P("location", Cleaned(Named(row, "location"), 100)),
         P("latestProfessionalValuation", if Truthy(valuation) then Bounded(valuation, nested.(depth := 2), 0) else Null)])
  }

  function CompactProperty(property: Value, items: nat, nested: Limits): Value {
    if !Truthy(property) then Null
    else Obj([RefOf(property), P("available", Bool(Named(property, "available") != Bool(false))),
              P("restricted", Bool(Named(property, "restricted") == Bool(true))),
              P("metrics", Bounded(Named(property, "metrics"), nested, 0)),
              P("items", Arr(Each(Rows(Named(property, "items"), items), (row: Value) => PropertyItem(row, nested))))])
  }

  const MAX_SAFE: int := 0x1F_FFFF_FFFF_FFFF

  /** A safe integer, or null. */
  function Amount(v: Value): Value { if v.Number? && -MAX_SAFE <= v.n <= MAX_SAFE then v else Null }

  function CompactBusinessMemory(memory: Value, nested: Limits): Value {
    if !Truthy(memory) then Null
    else
      Obj([RefOf(memory), P("businessDate", OrNull(Named(memory, "businessDate"))),
           P("market", Bounded(Named(memory, "market"), nested.(depth := 2), 0)),
           P("identity", Bounded(Named(memory, "identity"), nested.(depth := 2), 0)),
           P("ownerEnteredMemory", Bounded(Named(memory, "ownerEnteredMemory"), nested, 0)),
           P("language", Bounded(Named(memory, "language"), nested.(depth := 2), 0)),
           P("sales", Bounded(Named(memory, "sales"), nested, 0)),
           P("analytics", Bounded(Named(memory, "analytics"), nested, 0)),
           P("spendEnvelope", Bounded(Named(memory, "spendEnvelope"), nested.(depth := 3), 0)),
           P("proposedSpendScenario", Bounded(Named(memory, "proposedSpendScenario"), nested.(depth := 3), 0)),
           P("positiveInflowTodayMinor", Amount(Named(memory, "positiveInflowTodayMinor"))),
           P("customerCollectionsTodayMinor", Amount(Named(memory, "customerCollectionsTodayMinor"))),
           P("provenanceRule", Cleaned(Named(memory, "provenanceRule"), 240))])
  }

  function Availability(context: Value): Value {
    Obj(With(Spread(Named(context, "contextAvailability")), [P("contextCompaction", Str(Letters("compacted"))), P("contextComplete", Bool(false))]))
  }

  function CompactProtection(protection: Value, nested: Limits): Value {
    if !Truthy(protection) then Null
    else Obj([RefOf(protection), P("score", Named(protection, "score")), P("grade", Named(protection, "grade")),
              P("dimensions", Bounded(Named(protection, "dimensions"), nested, 0)),
              P("capturedAt", OrNull(Named(protection, "capturedAt")))])
  }

  /** A row with its title cut and its source references cut to eight. */
  function Obligation(row: Value, stringLimit: nat): Value {
    Obj(With(Spread(row), [P("title", Cleaned(Named(row, "title"), stringLimit)), P("ruleRef", Cleaned(Named(row, "ruleRef"), 100)),
                           Prop(SourceRefs, Arr(Rows(Get(row, SourceRefs), 8)))]))
  }

  function Risk(row: Value, stringLimit: nat): Value {
    var action := if stringLimit + 60 < 220 then stringLimit + 60 else 220;
    Obj(With(Spread(row), [P("title", Cleaned(Named(row, "title"), stringLimit)),
                           P("recommendedAction", Cleaned(Named(row, "recommendedAction"), action))]))
  }

  function Control(row: Value, stringLimit: nat): Value {
    Obj(Override(Spread(row), P("name", Cleaned(Named(row, "name"), stringLimit))))
  }

  function Tender(row: Value, stringLimit: nat): Value {
    Obj(With(Spread(row), [P("title", Cleaned(Named(row, "title"), stringLimit)), P("issuer", Cleaned(Named(row, "issuer"), 100))]))
  }

  function NestedOf(spec: Spec): Limits {
    Limits(spec.depth, spec.nestedArrayLimit, spec.keyLimit, spec.stringLimit)
  }

  function BoundedSections(context: Value, nested: Limits): seq<Prop> {
    var two := nested.(depth := 2);
    [P("profile", Bounded(Named(context, "profile"), two, 0)), P("market", Bounded(Named(context, "market"), two, 0)),
     P("language", Bounded(Named(context, "language"), two, 0)), P("cipa", Bounded(Named(context, "cipa"), two, 0)),
     P("operations", Bounded(Named(context, "operations"), two, 0))]
  }

  function RowSections(context: Value, spec: Spec): seq<Prop> {
    [P("obligations", Arr(Each(Rows(Named(context, "obligations"), spec.obligations), (row: Value) => Obligation(row, spec.stringLimit)))),
     P("risks", Arr(Each(Rows(Named(context, "risks"), spec.risks), (row: Value) => Risk(row, spec.stringLimit)))),
     P("controls", Arr(Each(Rows(Named(context, "controls"), spec.controls), (row: Value) => Control(row, spec.stringLimit)))),
     P("tenders", Arr(Each(Rows(Named(context, "tenders"), spec.tenders), (row: Value) => Tender(row, spec.stringLimit)))),
     P("sources", Arr(Present(Each(Rows(Named(context, "sources"), spec.sources),
                                   (row: Value) => CompactSource(row, spec.dropSourceUrls, spec.stringLimit)))))]
  }

  function PartSections(context: Value, spec: Spec): seq<Prop> {
    var nested := NestedOf(spec);
    [P("contextAvailability", Availability(context)), P("protection", CompactProtection(Named(context, "protection"), nested)),
     P("finance", CompactFinance(Named(context, "finance"), spec.receivables)),
     P("propertyContext", CompactProperty(Named(context, "propertyContext"), spec.propertyItems, nested)),
     P("businessMemory", CompactBusinessMemory(Named(context, "businessMemory"), nested))]
  }

  /** The context with every known section cut down; sections it does not know are kept as they are. */
  function Projected(context: Value, spec: Spec): Value {
    Obj(With(Spread(context), PartSections(context, spec) + BoundedSections(context, NestedOf(spec)) + RowSections(context, spec)))
  }

  // ----- the last two projections

  const ESSENTIAL: Limits := Limits(2, 2, 12, 110)
  const TINY: Limits := Limits(1, 1, 8, 80)
  const FINAL: Limits := Limits(6, 4, 32, 120)

  function WorkspaceVersion(context: Value): Value {
    var v := Named(context, "workspaceVersion");
    if v.Number? then v else Number(0)
  }

  function Pick(row: Value, names: seq<string>): seq<Prop> {
    seq(|names|, i requires 0 <= i < |names| => P(names[i], Named(row, names[i])))
  }

  function PickOrNull(row: Value, names: seq<string>): seq<Prop> {
    seq(|names|, i requires 0 <= i < |names| => P(names[i], OrNull(Named(row, names[i]))))
  }

  function EssentialProtection(protection: Value): Value {
    if !Truthy(protection) then Null
    else Obj([RefOf(protection)] + Pick(protection, ["score", "grade"]) + PickOrNull(protection, ["capturedAt"]))
  }

  function EssentialFinance(finance: Value): Value {
    if !Truthy(finance) then Null
    else Obj(Override(Spread(CompactFinance(finance, 0)), P("topReceivables", Arr([]))))
  }

  function EssentialProperty(property: Value, nested: Limits): Value {
    if !Truthy(property) then Null
    else Obj([RefOf(property), P("available", Bool(Named(property, "available") != Bool(false))),
              P("restricted", Bool(Named(property, "restricted") == Bool(true))),
              P("metrics", Bounded(Named(property, "metrics"), nested, 0)), P("items", Arr([]))])
  }

  function EssentialMemory(memory: Value, nested: Limits): Value {
    if !Truthy(memory) then Null
    else
      Obj([RefOf(memory), P("businessDate", OrNull(Named(memory, "businessDate"))),
           P("identity", Bounded(Named(memory, "identity"), nested, 0)),
           P("ownerEnteredMemory", Bounded(Named(memory, "ownerEnteredMemory"), nested, 0)),
           P("sales", Bounded(Named(memory, "sales"), nested, 0)), P("analytics", Bounded(Named(memory, "analytics"), nested, 0)),
           P("spendEnvelope", Bounded(Named(memory, "spendEnvelope"), nested, 0)),
           P("proposedSpendScenario", Bounded(Named(memory, "proposedSpendScenario"), nested, 0)),
           P("positiveInflowTodayMinor", Amount(Named(memory, "positiveInflowTodayMinor"))),
           P("customerCollectionsTodayMinor", Amount(Named(memory, "customerCollectionsTodayMinor"))),
           P("provenanceRule", Cleaned(Named(memory, "provenanceRule"), 180))])
  }

  /** How many rows of each kind the last projections keep, and how long their texts may be. */
  datatype Keep = Keep(obligations: nat, sourceRefs: nat, risks: nat, controls: nat, tenders: nat, sources: nat, text: nat, sourceText: nat)

  function KeptObligation(row: Value, keep: Keep, names: seq<string>): Value {
    Obj([RefOf(row), P("title", Cleaned(Named(row, "title"), keep.text))] + Pick(row, names) + PickOrNull(row, ["dueAt"])
        + [Prop(SourceRefs, Arr(Rows(Get(row, SourceRefs), keep.sourceRefs)))])
  }

  function KeptRow(row: Value, name: string, text: nat, names: seq<string>, nullable: seq<string>): Value {
    Obj([RefOf(row), P(name, Cleaned(Named(row, name), text))] + Pick(row, names) + PickOrNull(row, nullable))
  }

  function KeptRisk(row: Value, keep: Keep, action: bool): Value {
    Obj(KeptRow(row, "title", keep.text, ["severity", "status"], ["dueAt"]).props
        + (if action then [P("recommendedAction", Cleaned(Named(row, "recommendedAction"), 130))] else []))
  }

  /** The rows of the last two projections; `more` keeps a few columns the very last one drops. */
  function KeptRows(context: Value, keep: Keep, more: bool): seq<Prop> {
    [P("obligations", Arr(Each(Rows(Named(context, "obligations"), keep.obligations), (row: Value) =>
       KeptObligation(row, keep, if more then ["status", "priority"] else ["status"])))),
     P("risks", Arr(Each(Rows(Named(context, "risks"), keep.risks), (row: Value) => KeptRisk(row, keep, more)))),
     P("controls", Arr(Each(Rows(Named(context, "controls"), keep.controls), (row: Value) =>
       KeptRow(row, "name", keep.text, ["status", "evidenceHealth"], if more then ["dueAt"] else [])))),
     P("tenders", Arr(Each(Rows(Named(context, "tenders"), keep.tenders), (row: Value) =>
       KeptRow(row, "title", keep.text, if more then ["status", "missingRequired", "mandatoryCount"] else ["status"], ["closingAt"])))),
     P("sources", Arr(Present(Each(Rows(Named(context, "sources"), keep.sources), (row: Value) => CompactSource(row, true, keep.sourceText)))))]
  }

  function EssentialParts(context: Value): seq<Prop> {
    [P("contextAvailability", Availability(context)), P("workspaceVersion", WorkspaceVersion(context)),
     P("protection", EssentialProtection(Named(context, "protection"))), P("finance", EssentialFinance(Named(context, "finance"))),
     P("propertyContext", EssentialProperty(Named(context, "propertyContext"), ESSENTIAL)),
     P("businessMemory", EssentialMemory(Named(context, "businessMemory"), ESSENTIAL))]
  }

  function Essential(context: Value): Value {
    Obj(EssentialParts(context)
        + BoundedSections(context, ESSENTIAL)
        + KeptRows(context, Keep(4, 4, 3, 3, 2, 4, 110, 100), true))
  }

  function RefsOnlyFinance(finance: Value): Value {
    if !Truthy(finance) then Null
    else Obj([RefOf(finance)] + PickOrNull(finance, ["lastImportAt"])
             + Pick(finance, ["currency", "cashPositionMinor", "unresolvedReconciliations", "unresolvedExposureMinor", "outstandingMinor", "overdueMinor"]))
  }

  function RefsOnlyProperty(property: Value): Value {
    if !Truthy(property) then Null
    else Obj([RefOf(property), P("available", Bool(Named(property, "available") != Bool(false))),
              P("restricted", Bool(Named(property, "restricted") == Bool(true)))])
  }

  function RefsOnlyMemory(memory: Value): Value {
    if !Truthy(memory) then Null
    else Obj([RefOf(memory), P("businessDate", OrNull(Named(memory, "businessDate"))),
              P("provenanceRule", Cleaned(Named(memory, "provenanceRule"), 120))])
  }

  function RefsOnlyParts(context: Value): seq<Prop> {
    [P("contextAvailability", Availability(context)), P("workspaceVersion", WorkspaceVersion(context)),
     P("protection", EssentialProtection(Named(context, "protection"))),
     P("finance", RefsOnlyFinance(Named(context, "finance"))),
     P("propertyContext", RefsOnlyProperty(Named(context, "propertyContext"))),
     P("businessMemory", RefsOnlyMemory(Named(context, "businessMemory")))]
  }

  function TinySections(context: Value): seq<Prop> {
    [P("profile", Bounded(Named(context, "profile"), TINY, 0)), P("market", Bounded(Named(context, "market"), TINY, 0)),
     P("language", Bounded(Named(context, "language"), TINY, 0)), P("cipa", Bounded(Named(context, "cipa"), TINY, 0)),
     P("operations", Bounded(Named(context, "operations"), TINY, 0))]
  }

  /** Identifiers and headlines, then every retained string and array bounded once more. */
  function RefsOnly(context: Value): Value {
    Bounded(Obj(RefsOnlyParts(context) + TinySections(context) + KeptRows(context, Keep(3, 3, 2, 2, 2, 3, 80, 80), false)), FINAL, 0)
  }

  /** The fixed notice that the context could not be included. */
  function Unavailable(): Value {
    Obj([P("contextAvailability", Obj([
      P("financeAndBusiness", Str(Letters("unavailable"))), P("financeAndBusinessComplete", Bool(false)),
      P("financeAndBusinessReason", Str(Letters("ai_advisor_context_limit_exceeded"))),
      P("contextCompaction", Str(Letters("compacted"))), P("contextComplete", Bool(false))]))])
  }

  // ----- no projection invents a reference

  lemma {:induction false} LookupIn(props: seq<Prop>, key: Field, refs: set<Text>)
    requires PropsIn(props, refs)
    ensures var p := Prop(key, Lookup(props, key)); PropRefs(p) <= refs && PropClean(p)
    decreases |props|
  {
    if props != [] {
      var last := props[|props| - 1];
      assert last in props && forall p :: p in props[..|props| - 1] ==> p in props;
      if last.key != key {
        LookupIn(props[..|props| - 1], key, refs);
      }
    }
  }

  /** A property read from a value, put back under its own name. */
  lemma GetIn(v: Value, key: Field, refs: set<Text>)
    requires Within(v, refs)
    ensures var p := Prop(key, Get(v, key)); PropRefs(p) <= refs && PropClean(p) && Within(Get(v, key), refs)
  {
    if v.Obj? {
      ObjWithin(v.props, refs);
      LookupIn(v.props, key, refs);
    }
  }

  lemma NamedIn(v: Value, name: string, refs: set<Text>)
    requires Within(v, refs)
    ensures Within(Named(v, name), refs)
  {
    GetIn(v, Other(name), refs);
  }

  lemma RowsIn(v: Value, n: nat, refs: set<Text>)
    requires Within(v, refs)
    ensures ItemsIn(Rows(v, n), refs)
  {
    if v.Arr? {
      ArrWithin(v.items, refs);
      assert forall x :: x in Take(v.items, n) ==> x in v.items;
    }
  }

  /** A mapping that keeps every row within the set keeps the whole list within it. */
  lemma EachWithin(rows: seq<Value>, f: Value -> Value, refs: set<Text>)
    requires forall row :: row in rows ==> Within(f(row), refs)
    ensures Within(Arr(Each(rows, f)), refs)
  {
    ArrWithin(Each(rows, f), refs);
    hide Refs, RefsClean;
    assert ItemsIn(Each(rows, f), refs);
  }

  lemma {:induction false} PresentIn(items: seq<Value>, refs: set<Text>)
    requires ItemsIn(items, refs)
    ensures ItemsIn(Present(items), refs)
    decreases |items|
  {
    if items != [] {
      assert items[|items| - 1] in items && forall v :: v in items[..|items| - 1] ==> v in items;
      PresentIn(items[..|items| - 1], refs);
    }
  }

  lemma SpreadIn(v: Value, refs: set<Text>)
    requires Within(v, refs)
    ensures PropsIn(Spread(v), refs)
  {
    if v.Obj? {
      ObjWithin(v.props, refs);
    }
  }

  lemma {:induction false} OverrideIn(props: seq<Prop>, p: Prop, refs: set<Text>)
    requires PropsIn(props, refs) && PropRefs(p) <= refs && PropClean(p)
    ensures PropsIn(Override(props, p), refs)
    decreases |props|
  {
    if props != [] {
      assert props[0] in props && forall q :: q in props[1..] ==> q in props;
      hide PropRefs, PropClean;
      if props[0].key != p.key {
        OverrideIn(props[1..], p, refs);
      }
    }
  }

  lemma {:induction false} WithIn(props: seq<Prop>, changes: seq<Prop>, refs: set<Text>)
    requires PropsIn(props, refs) && PropsIn(changes, refs)
    ensures PropsIn(With(props, changes), refs)
    decreases |changes|
  {
    if changes != [] {
      assert changes[0] in changes && forall q :: q in changes[1..] ==> q in changes;
      OverrideIn(props, changes[0], refs);
      WithIn(Override(props, changes[0]), changes[1..], refs);
    }
  }

  /** Everything a projection may copy out of a value stays within the set. */
  ghost predicate Readable(v: Value, refs: set<Text>) {
    && PropIn(RefOf(v), refs)
    && (forall name :: PropIn(P(name, Named(v, name)), refs))
    && (forall name :: PropIn(P(name, OrNull(Named(v, name))), refs))
    && (forall name, key, n :: PropIn(P(key, Cleaned(Named(v, name), n)), refs))
  }

  lemma Reads(v: Value, refs: set<Text>)
    requires Within(v, refs)
    ensures Readable(v, refs)
  {
    GetIn(v, Ref, refs);
    forall name
      ensures PropIn(P(name, Named(v, name)), refs) && PropIn(P(name, OrNull(Named(v, name))), refs)
    {
      NamedIn(v, name, refs);
      ValueIn(name, Named(v, name), refs);
      ValueIn(name, OrNull(Named(v, name)), refs);
    }
    forall name, key, n
      ensures PropIn(P(key, Cleaned(Named(v, name), n)), refs)
    {
      SimpleIn(key, Cleaned(Named(v, name), n), refs);
    }
  }

  lemma PickedIn(row: Value, names: seq<string>, refs: set<Text>)
    requires Within(row, refs)
    ensures forall p :: p in Pick(row, names) ==> PropIn(p, refs)
    ensures forall p :: p in PickOrNull(row, names) ==> PropIn(p, refs)
  {
    Reads(row, refs);
    hide PropIn, Within, Named, OrNull;
  }

  lemma BoundedIn(v: Value, name: string, limits: Limits, refs: set<Text>)
    requires Within(v, refs) && limits.stringLimit >= REF_LIMIT
    ensures PropIn(P(name, Bounded(Named(v, name), limits, 0)), refs)
  {
    NamedIn(v, name, refs);
    BoundedWithin(Named(v, name), limits, 0, refs);
  }

  lemma SimpleIn(name: string, v: Value, refs: set<Text>)
    requires v.Null? || v.Bool? || v.Number? || v.Str?
    ensures PropIn(P(name, v), refs)
  {
  }

  lemma ValueIn(name: string, v: Value, refs: set<Text>)
    requires Within(v, refs)
    ensures PropIn(P(name, v), refs)
  {
  }

  /** The source references of a row, cut to a prefix. */
  lemma SourceRefsIn(row: Value, n: nat, refs: set<Text>)
    requires Within(row, refs)
    ensures PropIn(Prop(SourceRefs, Arr(Rows(Get(row, SourceRefs), n))), refs)
  {
    GetIn(row, SourceRefs, refs);
    var v := Get(row, SourceRefs);
    RowsIn(v, n, refs);
    ArrWithin(Rows(v, n), refs);
    assert forall x :: x in Rows(v, n) ==> v.Arr? && x in v.items;
  }

  lemma PropsAre(props: seq<Prop>, refs: set<Text>)
    requires forall p :: p in props ==> PropIn(p, refs)
    ensures PropsIn(props, refs) && Within(Obj(props), refs)
  {
    ObjWithin(props, refs);
  }

  lemma SourceHeadlineIn(x: Value, stringLimit: nat, refs: set<Text>)
    requires Readable(x, refs)
    ensures forall p :: p in SourceHeadline(x, stringLimit) ==> PropIn(p, refs)
  {
    hide PropIn, Within, Cleaned, Named, RefOf;
  }

  lemma CompactSourceWithin(x: Value, dropUrl: bool, stringLimit: nat, refs: set<Text>)
    requires Within(x, refs)
    ensures Within(CompactSource(x, dropUrl, stringLimit), refs)
  {
    Reads(x, refs);
    if Truthy(x) {
      var props := CompactSource(x, dropUrl, stringLimit).props;
      SimpleIn("verificationStatus", VerificationStatus(x), refs);
      SourceHeadlineIn(x, stringLimit, refs);
      hide PropIn, PropsIn, Within, Cleaned, Named, Truthy, OrNull, VerificationStatus, SourceHeadline;
      PropsAre(props, refs);
    }
  }

  lemma ChangedRowWithin(row: Value, changes: seq<Prop>, refs: set<Text>)
    requires Within(row, refs) && forall p :: p in changes ==> PropIn(p, refs)
    ensures Within(Obj(With(Spread(row), changes)), refs)
  {
    SpreadIn(row, refs);
    WithIn(Spread(row), changes, refs);
    ObjWithin(With(Spread(row), changes), refs);
  }

  lemma OverriddenWithin(row: Value, p: Prop, refs: set<Text>)
    requires Within(row, refs) && PropIn(p, refs)
    ensures Within(Obj(Override(Spread(row), p)), refs)
  {
    SpreadIn(row, refs);
    OverrideIn(Spread(row), p, refs);
    ObjWithin(Override(Spread(row), p), refs);
  }

  lemma ReceivableRowWithin(row: Value, refs: set<Text>)
    requires Within(row, refs)
    ensures Within(ReceivableRow(row), refs)
  {
    Reads(row, refs);
    hide PropIn, Within, Cleaned, Named;
    OverriddenWithin(row, P("customerName", Cleaned(Named(row, "customerName"), 100)), refs);
  }

  lemma CompactFinanceWithin(finance: Value, receivables: nat, refs: set<Text>)
    requires Within(finance, refs)
    ensures Within(CompactFinance(finance, receivables), refs)
  {
    if Truthy(finance) {
      NamedIn(finance, "topReceivables", refs);
      var rows := Rows(Named(finance, "topReceivables"), receivables);
      RowsIn(Named(finance, "topReceivables"), receivables, refs);
      forall row | row in rows
        ensures Within(ReceivableRow(row), refs)
      {
        ReceivableRowWithin(row, refs);
      }
      hide ReceivableRow, Refs, RefsClean;
      EachWithin(rows, ReceivableRow, refs);
      ValueIn("topReceivables", Arr(Each(rows, ReceivableRow)), refs);
      hide Within, PropIn, Each, Rows, Override, Named;
      OverriddenWithin(finance, P("topReceivables", Arr(Each(rows, ReceivableRow))), refs);
    }
  }

  lemma PropertyItemWithin(row: Value, nested: Limits, refs: set<Text>)
    requires Within(row, refs) && nested.stringLimit >= REF_LIMIT
    ensures Within(PropertyItem(row, nested), refs)
  {
    Reads(row, refs);
    BoundedIn(row, "latestProfessionalValuation", nested.(depth := 2), refs);
    SimpleIn("latestProfessionalValuation", Null, refs);
    var props := PropertyItem(row, nested).props;
    hide PropIn, PropsIn, Within, Cleaned, Named, Truthy, Bounded;
    PropsAre(props, refs);
  }

  lemma CompactPropertyWithin(property: Value, items: nat, nested: Limits, refs: set<Text>)
    requires Within(property, refs) && nested.stringLimit >= REF_LIMIT
    ensures Within(CompactProperty(property, items, nested), refs)
  {
    if Truthy(property) {
      Reads(property, refs);
      BoundedIn(property, "metrics", nested, refs);
      NamedIn(property, "items", refs);
      var rows := Rows(Named(property, "items"), items);
      RowsIn(Named(property, "items"), items, refs);
      var f := (row: Value) => PropertyItem(row, nested);
      forall row | row in rows
        ensures Within(f(row), refs)
      {
        PropertyItemWithin(row, nested, refs);
      }
      EachWithin(rows, f, refs);
      ValueIn("items", Arr(Each(rows, f)), refs);
      SimpleIn("available", Bool(Named(property, "available") != Bool(false)), refs);
      SimpleIn("restricted", Bool(Named(property, "restricted") == Bool(true)), refs);
      var props := CompactProperty(property, items, nested).props;
      hide PropIn, PropsIn, Within, Cleaned, Named, Truthy, Bounded, Each, Rows, RefOf;
      PropsAre(props, refs);
    }
  }

  lemma AmountIn(name: string, v: Value, refs: set<Text>)
    ensures PropIn(P(name, Amount(v)), refs)
  {
  }

  lemma BoundedAll(v: Value, limits: Limits, refs: set<Text>)
    requires Within(v, refs) && limits.stringLimit >= REF_LIMIT
    ensures forall name :: PropIn(P(name, Bounded(Named(v, name), limits, 0)), refs)
  {
    forall name
      ensures PropIn(P(name, Bounded(Named(v, name), limits, 0)), refs)
    {
      BoundedIn(v, name, limits, refs);
    }
  }

  lemma AmountsAll(v: Value, refs: set<Text>)
    ensures forall name :: PropIn(P(name, Amount(Named(v, name))), refs)
  {
    forall name
      ensures PropIn(P(name, Amount(Named(v, name))), refs)
    {
      AmountIn(name, Named(v, name), refs);
    }
  }

  /** All of a value's bounded and plain columns, for the three depths in use. */
  ghost predicate Boundable(v: Value, nested: Limits, refs: set<Text>) {
    && (forall name :: PropIn(P(name, Bounded(Named(v, name), nested, 0)), refs))
    && (forall name :: PropIn(P(name, Bounded(Named(v, name), nested.(depth := 2), 0)), refs))
    && (forall name :: PropIn(P(name, Bounded(Named(v, name), nested.(depth := 3), 0)), refs))
    && (forall name :: PropIn(P(name, Amount(Named(v, name))), refs))
  }

  lemma BoundsAll(v: Value, nested: Limits, refs: set<Text>)
    requires Within(v, refs) && nested.stringLimit >= REF_LIMIT
    ensures Boundable(v, nested, refs)
  {
    BoundedAll(v, nested, refs);
    BoundedAll(v, nested.(depth := 2), refs);
    BoundedAll(v, nested.(depth := 3), refs);
    AmountsAll(v, refs);
    hide PropIn, Bounded, Named, Amount;
  }

  lemma CompactBusinessMemoryWithin(memory: Value, nested: Limits, refs: set<Text>)
    requires Within(memory, refs) && nested.stringLimit >= REF_LIMIT
    ensures Within(CompactBusinessMemory(memory, nested), refs)
  {
    if Truthy(memory) {
      Reads(memory, refs);
      BoundsAll(memory, nested, refs);
      var props := CompactBusinessMemory(memory, nested).props;
      hide PropIn, Within, Cleaned, Named, Truthy, Bounded, Amount, OrNull, PropsIn;
      MemoryProps(memory, nested, refs);
      PropsAre(props, refs);
    }
  }

  lemma MemoryProps(memory: Value, nested: Limits, refs: set<Text>)
    requires Truthy(memory) && Readable(memory, refs) && Boundable(memory, nested, refs)
    ensures forall p :: p in CompactBusinessMemory(memory, nested).props ==> PropIn(p, refs)
  {
    hide PropIn, Cleaned, Named, Bounded, Amount, OrNull;
  }

  lemma EssentialMemoryWithin(memory: Value, nested: Limits, refs: set<Text>)
    requires Within(memory, refs) && nested.stringLimit >= REF_LIMIT
    ensures Within(EssentialMemory(memory, nested), refs)
  {
    if Truthy(memory) {
      Reads(memory, refs);
      BoundsAll(memory, nested, refs);
      var props := EssentialMemory(memory, nested).props;
      hide PropIn, Within, Cleaned, Named, Truthy, Bounded, Amount, OrNull, PropsIn;
      EssentialMemoryProps(memory, nested, refs);
      PropsAre(props, refs);
    }
  }

  lemma EssentialMemoryProps(memory: Value, nested: Limits, refs: set<Text>)
    requires Truthy(memory) && Readable(memory, refs) && Boundable(memory, nested, refs)
    ensures forall p :: p in EssentialMemory(memory, nested).props ==> PropIn(p, refs)
  {
    hide PropIn, Cleaned, Named, Bounded, Amount, OrNull;
  }

  lemma AvailabilityWithin(context: Value, refs: set<Text>)
    requires Within(context, refs)
    ensures Within(Availability(context), refs)
  {
    NamedIn(context, "contextAvailability", refs);
    SimpleIn("contextCompaction", Str(Letters("compacted")), refs);
    SimpleIn("contextComplete", Bool(false), refs);
    ChangedRowWithin(Named(context, "contextAvailability"),
                     [P("contextCompaction", Str(Letters("compacted"))), P("contextComplete", Bool(false))], refs);
  }

  lemma ProtectionWithin(protection: Value, nested: Limits, refs: set<Text>)
    requires Within(protection, refs) && nested.stringLimit >= REF_LIMIT
    ensures Within(CompactProtection(protection, nested), refs)
    ensures Within(EssentialProtection(protection), refs)
  {
    if Truthy(protection) {
      Reads(protection, refs);
      BoundedIn(protection, "dimensions", nested, refs);
      PickedIn(protection, ["score", "grade"], refs);
      PickedIn(protection, ["capturedAt"], refs);
      var (a, b) := (CompactProtection(protection, nested).props, EssentialProtection(protection).props);
      hide PropIn, PropsIn, Within, Cleaned, Named, Truthy, Bounded, OrNull, Pick, PickOrNull, RefOf;
      PropsAre(a, refs);
      PropsAre(b, refs);
    }
  }
  // rows

  lemma ObligationWithin(row: Value, stringLimit: nat, refs: set<Text>)
    requires Within(row, refs)
    ensures Within(Obligation(row, stringLimit), refs)
  {
    Reads(row, refs);
    SourceRefsIn(row, 8, refs);
    hide PropIn, Within, Cleaned, Named, Rows, Get;
    ChangedRowWithin(row, [P("title", Cleaned(Named(row, "title"), stringLimit)), P("ruleRef", Cleaned(Named(row, "ruleRef"), 100)),
                           Prop(SourceRefs, Arr(Rows(Get(row, SourceRefs), 8)))], refs);
  }

  lemma RiskWithin(row: Value, stringLimit: nat, refs: set<Text>)
    requires Within(row, refs)
    ensures Within(Risk(row, stringLimit), refs)
  {
    Reads(row, refs);
    hide PropIn, Within, Cleaned, Named;
    var action := if stringLimit + 60 < 220 then stringLimit + 60 else 220;
    ChangedRowWithin(row, [P("title", Cleaned(Named(row, "title"), stringLimit)),
                           P("recommendedAction", Cleaned(Named(row, "recommendedAction"), action))], refs);
  }

  lemma ControlWithin(row: Value, stringLimit: nat, refs: set<Text>)
    requires Within(row, refs)
    ensures Within(Control(row, stringLimit), refs)
  {
    Reads(row, refs);
    hide PropIn, Within, Cleaned, Named;
    OverriddenWithin(row, P("name", Cleaned(Named(row, "name"), stringLimit)), refs);
  }

  lemma TenderWithin(row: Value, stringLimit: nat, refs: set<Text>)
    requires Within(row, refs)
    ensures Within(Tender(row, stringLimit), refs)
  {
    Reads(row, refs);
    hide PropIn, Within, Cleaned, Named;
    ChangedRowWithin(row, [P("title", Cleaned(Named(row, "title"), stringLimit)), P("issuer", Cleaned(Named(row, "issuer"), 100))], refs);
  }

  /** A section of rows, each kept within the set by the mapping. */
  lemma SectionIn(context: Value, name: string, n: nat, f: Value -> Value, refs: set<Text>)
    requires Within(context, refs) && forall row :: Within(row, refs) ==> Within(f(row), refs)
    ensures PropIn(P(name, Arr(Each(Rows(Named(context, name), n), f))), refs)
  {
    NamedIn(context, name, refs);
    var rows := Rows(Named(context, name), n);
    RowsIn(Named(context, name), n, refs);
    EachWithin(rows, f, refs);
    ValueIn(name, Arr(Each(rows, f)), refs);
  }

  lemma SourcesIn(context: Value, n: nat, dropUrl: bool, stringLimit: nat, refs: set<Text>)
    requires Within(context, refs)
    ensures PropIn(P("sources", Arr(Present(Each(Rows(Named(context, "sources"), n),
                     (row: Value) => CompactSource(row, dropUrl, stringLimit))))), refs)
  {
    NamedIn(context, "sources", refs);
    var rows := Rows(Named(context, "sources"), n);
    RowsIn(Named(context, "sources"), n, refs);
    var f := (row: Value) => CompactSource(row, dropUrl, stringLimit);
    forall row | row in rows
      ensures Within(f(row), refs)
    {
      CompactSourceWithin(row, dropUrl, stringLimit, refs);
    }
    EachWithin(rows, f, refs);
    ArrWithin(Each(rows, f), refs);
    PresentIn(Each(rows, f), refs);
    ArrWithin(Present(Each(rows, f)), refs);
    ValueIn("sources", Arr(Present(Each(rows, f))), refs);
  }

  lemma RowSectionsIn(context: Value, spec: Spec, refs: set<Text>)
    requires Within(context, refs)
    ensures forall p :: p in RowSections(context, spec) ==> PropIn(p, refs)
  {
    var n := spec.stringLimit;
    forall row | Within(row, refs)
      ensures Within(Obligation(row, n), refs) && Within(Risk(row, n), refs) && Within(Control(row, n), refs) && Within(Tender(row, n), refs)
    {
      ObligationWithin(row, n, refs);
      RiskWithin(row, n, refs);
      ControlWithin(row, n, refs);
      TenderWithin(row, n, refs);
    }
    hide Within, PropIn, Obligation, Risk, Control, Tender, Each, Rows, Named, CompactSource, Present;
    SectionIn(context, "obligations", spec.obligations, (row: Value) => Obligation(row, n), refs);
    SectionIn(context, "risks", spec.risks, (row: Value) => Risk(row, n), refs);
    SectionIn(context, "controls", spec.controls, (row: Value) => Control(row, n), refs);
    SectionIn(context, "tenders", spec.tenders, (row: Value) => Tender(row, n), refs);
    SourcesIn(context, spec.sources, spec.dropSourceUrls, n, refs);
  }

  lemma BoundedSectionsIn(context: Value, nested: Limits, refs: set<Text>)
    requires Within(context, refs) && nested.stringLimit >= REF_LIMIT
    ensures forall p :: p in BoundedSections(context, nested) ==> PropIn(p, refs)
  {
    BoundedAll(context, nested.(depth := 2), refs);
    hide Within, PropIn, Bounded, Named;
  }

  lemma PartSectionsIn(context: Value, spec: Spec, refs: set<Text>)
    requires Within(context, refs) && spec.stringLimit >= REF_LIMIT
    ensures forall p :: p in PartSections(context, spec) ==> PropIn(p, refs)
  {
    var nested := NestedOf(spec);
    AvailabilityWithin(context, refs);
    ValueIn("contextAvailability", Availability(context), refs);
    NamedIn(context, "protection", refs);
    ProtectionWithin(Named(context, "protection"), nested, refs);
    ValueIn("protection", CompactProtection(Named(context, "protection"), nested), refs);
    NamedIn(context, "finance", refs);
    CompactFinanceWithin(Named(context, "finance"), spec.receivables, refs);
    ValueIn("finance", CompactFinance(Named(context, "finance"), spec.receivables), refs);
    NamedIn(context, "propertyContext", refs);
    CompactPropertyWithin(Named(context, "propertyContext"), spec.propertyItems, nested, refs);
    ValueIn("propertyContext", CompactProperty(Named(context, "propertyContext"), spec.propertyItems, nested), refs);
    NamedIn(context, "businessMemory", refs);
    CompactBusinessMemoryWithin(Named(context, "businessMemory"), nested, refs);
    ValueIn("businessMemory", CompactBusinessMemory(Named(context, "businessMemory"), nested), refs);
    hide Within, PropIn, Named, Availability, CompactProtection, CompactFinance, CompactProperty, CompactBusinessMemory;
  }

  lemma ProjectedWithin(context: Value, spec: Spec, refs: set<Text>)
    requires Within(context, refs) && spec.stringLimit >= REF_LIMIT
    ensures Within(Projected(context, spec), refs)
  {
    PartSectionsIn(context, spec, refs);
    BoundedSectionsIn(context, NestedOf(spec), refs);
    RowSectionsIn(context, spec, refs);
    hide Within, PropIn, PartSections, BoundedSections, RowSections, With;
    ChangedRowWithin(context, PartSections(context, spec) + BoundedSections(context, NestedOf(spec)) + RowSections(context, spec), refs);
  }

  // the last two projections

  lemma KeptRowWithin(row: Value, name: string, text: nat, names: seq<string>, nullable: seq<string>, refs: set<Text>)
    requires Within(row, refs)
    ensures Within(KeptRow(row, name, text, names, nullable), refs)
    ensures forall p :: p in KeptRow(row, name, text, names, nullable).props ==> PropIn(p, refs)
  {
    Reads(row, refs);
    PickedIn(row, names, refs);
    PickedIn(row, nullable, refs);
    var props := KeptRow(row, name, text, names, nullable).props;
    hide Within, PropIn, Cleaned, Named, Pick, PickOrNull, RefOf;
    PropsAre(props, refs);
  }

  lemma KeptRiskWithin(row: Value, keep: Keep, action: bool, refs: set<Text>)
    requires Within(row, refs)
    ensures Within(KeptRisk(row, keep, action), refs)
  {
    Reads(row, refs);
    KeptRowWithin(row, "title", keep.text, ["severity", "status"], ["dueAt"], refs);
    var props := KeptRisk(row, keep, action).props;
    hide Within, PropIn, Cleaned, Named, KeptRow;
    PropsAre(props, refs);
  }

  lemma KeptObligationWithin(row: Value, keep: Keep, names: seq<string>, refs: set<Text>)
    requires Within(row, refs)
    ensures Within(KeptObligation(row, keep, names), refs)
  {
    Reads(row, refs);
    PickedIn(row, names, refs);
    PickedIn(row, ["dueAt"], refs);
    SourceRefsIn(row, keep.sourceRefs, refs);
    var props := KeptObligation(row, keep, names).props;
    hide Within, PropIn, Cleaned, Named, Pick, PickOrNull, RefOf, Rows, Get;
    PropsAre(props, refs);
  }

  lemma KeptRowsIn(context: Value, keep: Keep, more: bool, refs: set<Text>)
    requires Within(context, refs)
    ensures forall p :: p in KeptRows(context, keep, more) ==> PropIn(p, refs)
  {
    var obligation := (row: Value) => KeptObligation(row, keep, if more then ["status", "priority"] else ["status"]);
    var risk := (row: Value) => KeptRisk(row, keep, more);
    var control := (row: Value) => KeptRow(row, "name", keep.text, ["status", "evidenceHealth"], if more then ["dueAt"] else []);
    var tender := (row: Value) =>
      KeptRow(row, "title", keep.text, if more then ["status", "missingRequired", "mandatoryCount"] else ["status"], ["closingAt"]);
    forall row | Within(row, refs)
      ensures Within(obligation(row), refs) && Within(risk(row), refs) && Within(control(row), refs) && Within(tender(row), refs)
    {
      KeptObligationWithin(row, keep, if more then ["status", "priority"] else ["status"], refs);
      KeptRiskWithin(row, keep, more, refs);
      KeptRowWithin(row, "name", keep.text, ["status", "evidenceHealth"], if more then ["dueAt"] else [], refs);
      KeptRowWithin(row, "title", keep.text, if more then ["status", "missingRequired", "mandatoryCount"] else ["status"], ["closingAt"], refs);
    }
    hide Within, PropIn, KeptObligation, KeptRisk, KeptRow, Each, Rows, Named, CompactSource, Present;
    SectionIn(context, "obligations", keep.obligations, obligation, refs);
    SectionIn(context, "risks", keep.risks, risk, refs);
    SectionIn(context, "controls", keep.controls, control, refs);
    SectionIn(context, "tenders", keep.tenders, tender, refs);
    SourcesIn(context, keep.sources, true, keep.sourceText, refs);
  }

  lemma EssentialFinanceWithin(finance: Value, refs: set<Text>)
    requires Within(finance, refs)
    ensures Within(EssentialFinance(finance), refs)
  {
    if Truthy(finance) {
      CompactFinanceWithin(finance, 0, refs);
      ArrWithin([], refs);
      ValueIn("topReceivables", Arr([]), refs);
      hide Within, PropIn, CompactFinance, Override;
      OverriddenWithin(CompactFinance(finance, 0), P("topReceivables", Arr([])), refs);
    }
  }

  lemma EssentialPropertyWithin(property: Value, nested: Limits, refs: set<Text>)
    requires Within(property, refs) && nested.stringLimit >= REF_LIMIT
    ensures Within(EssentialProperty(property, nested), refs)
  {
    if Truthy(property) {
      Reads(property, refs);
      BoundedIn(property, "metrics", nested, refs);
      ArrWithin([], refs);
      ValueIn("items", Arr([]), refs);
      SimpleIn("available", Bool(Named(property, "available") != Bool(false)), refs);
      SimpleIn("restricted", Bool(Named(property, "restricted") == Bool(true)), refs);
      var props := EssentialProperty(property, nested).props;
      hide Within, PropIn, PropsIn, Named, Bounded, RefOf;
      PropsAre(props, refs);
    }
  }

  lemma EssentialPartsIn(context: Value, refs: set<Text>)
    requires Within(context, refs)
    ensures forall p :: p in EssentialParts(context) ==> PropIn(p, refs)
  {
    AvailabilityWithin(context, refs);
    ValueIn("contextAvailability", Availability(context), refs);
    SimpleIn("workspaceVersion", WorkspaceVersion(context), refs);
    NamedIn(context, "protection", refs);
    ProtectionWithin(Named(context, "protection"), ESSENTIAL, refs);
    ValueIn("protection", EssentialProtection(Named(context, "protection")), refs);
    NamedIn(context, "finance", refs);
    EssentialFinanceWithin(Named(context, "finance"), refs);
    ValueIn("finance", EssentialFinance(Named(context, "finance")), refs);
    NamedIn(context, "propertyContext", refs);
    EssentialPropertyWithin(Named(context, "propertyContext"), ESSENTIAL, refs);
    ValueIn("propertyContext", EssentialProperty(Named(context, "propertyContext"), ESSENTIAL), refs);
    NamedIn(context, "businessMemory", refs);
    EssentialMemoryWithin(Named(context, "businessMemory"), ESSENTIAL, refs);
    ValueIn("businessMemory", EssentialMemory(Named(context, "businessMemory"), ESSENTIAL), refs);
    hide Within, PropIn, Named, Availability, WorkspaceVersion, EssentialProtection, EssentialFinance, EssentialProperty, EssentialMemory;
  }

  lemma EssentialWithin(context: Value, refs: set<Text>)
    requires Within(context, refs)
    ensures Within(Essential(context), refs)
  {
    var keep := Keep(4, 4, 3, 3, 2, 4, 110, 100);
    EssentialPartsIn(context, refs);
    BoundedSectionsIn(context, ESSENTIAL, refs);
    KeptRowsIn(context, keep, true, refs);
    hide Within, PropIn, EssentialParts, BoundedSections, KeptRows;
    PropsAre(EssentialParts(context) + BoundedSections(context, ESSENTIAL) + KeptRows(context, keep, true), refs);
  }

  lemma RefsOnlyFinanceWithin(finance: Value, refs: set<Text>)
    requires Within(finance, refs)
    ensures Within(RefsOnlyFinance(finance), refs)
  {
    if Truthy(finance) {
      Reads(finance, refs);
      var plain := ["currency", "cashPositionMinor", "unresolvedReconciliations", "unresolvedExposureMinor", "outstandingMinor", "overdueMinor"];
      PickedIn(finance, ["lastImportAt"], refs);
      PickedIn(finance, plain, refs);
      var props := RefsOnlyFinance(finance).props;
      hide Within, PropIn, Pick, PickOrNull, RefOf;
      PropsAre(props, refs);
    }
  }

  lemma RefsOnlyPropertyWithin(property: Value, refs: set<Text>)
    requires Within(property, refs)
    ensures Within(RefsOnlyProperty(property), refs)
  {
    if Truthy(property) {
      Reads(property, refs);
      SimpleIn("available", Bool(Named(property, "available") != Bool(false)), refs);
      SimpleIn("restricted", Bool(Named(property, "restricted") == Bool(true)), refs);
      var props := RefsOnlyProperty(property).props;
      hide Within, PropIn, Named, RefOf;
      PropsAre(props, refs);
    }
  }

  lemma RefsOnlyMemoryWithin(memory: Value, refs: set<Text>)
    requires Within(memory, refs)
    ensures Within(RefsOnlyMemory(memory), refs)
  {
    if Truthy(memory) {
      Reads(memory, refs);
      var props := RefsOnlyMemory(memory).props;
      hide Within, PropIn, Named, Cleaned, OrNull, RefOf;
      PropsAre(props, refs);
    }
  }

  lemma RefsOnlyPartsIn(context: Value, refs: set<Text>)
    requires Within(context, refs)
    ensures forall p :: p in RefsOnlyParts(context) ==> PropIn(p, refs)
  {
    AvailabilityWithin(context, refs);
    ValueIn("contextAvailability", Availability(context), refs);
    SimpleIn("workspaceVersion", WorkspaceVersion(context), refs);
    NamedIn(context, "protection", refs);
    ProtectionWithin(Named(context, "protection"), ESSENTIAL, refs);
    ValueIn("protection", EssentialProtection(Named(context, "protection")), refs);
    NamedIn(context, "finance", refs);
    RefsOnlyFinanceWithin(Named(context, "finance"), refs);
    ValueIn("finance", RefsOnlyFinance(Named(context, "finance")), refs);
    NamedIn(context, "propertyContext", refs);
    RefsOnlyPropertyWithin(Named(context, "propertyContext"), refs);
    ValueIn("propertyContext", RefsOnlyProperty(Named(context, "propertyContext")), refs);
    NamedIn(context, "businessMemory", refs);
    RefsOnlyMemoryWithin(Named(context, "businessMemory"), refs);
    ValueIn("businessMemory", RefsOnlyMemory(Named(context, "businessMemory")), refs);
    hide Within, PropIn, Named, Availability, WorkspaceVersion, EssentialProtection, RefsOnlyFinance, RefsOnlyProperty, RefsOnlyMemory;
  }

  lemma TinySectionsIn(context: Value, refs: set<Text>)
    requires Within(context, refs)
    ensures forall p :: p in TinySections(context) ==> PropIn(p, refs)
  {
    BoundedAll(context, TINY, refs);
    hide Within, PropIn, Bounded, Named;
  }

  lemma RefsOnlyWithin(context: Value, refs: set<Text>)
    requires Within(context, refs)
    ensures Within(RefsOnly(context), refs)
  {
    var keep := Keep(3, 3, 2, 2, 2, 3, 80, 80);
    RefsOnlyPartsIn(context, refs);
    TinySectionsIn(context, refs);
    KeptRowsIn(context, keep, false, refs);
    var props := RefsOnlyParts(context) + TinySections(context) + KeptRows(context, keep, false);
    hide Within, PropIn, RefsOnlyParts, TinySections, KeptRows, Bounded;
    PropsAre(props, refs);
    BoundedWithin(Obj(props), FINAL, 0, refs);
  }

  // ----- the ladder

  datatype Stage = Full | BoundedStage | ReducedStage | MinimalStage | EssentialStage | RefsOnlyStage | UnavailableStage

  const BOUNDED_SPEC := Spec(3, 5, 24, 160, 5, 5, 12, 10, 10, 8, 16, false)
  const REDUCED_SPEC := Spec(3, 3, 18, 130, 3, 3, 8, 6, 6, 5, 10, true)
  const MINIMAL_SPEC := Spec(2, 2, 12, 100, 2, 2, 6, 4, 4, 3, 6, true)

  const STAGES: seq<Stage> :=
    [Full, BoundedStage, ReducedStage, MinimalStage, EssentialStage, RefsOnlyStage, UnavailableStage]

  function AtStage(context: Value, stage: Stage): Value {
    match stage
    case Full => context
    case BoundedStage => Projected(context, BOUNDED_SPEC)
    case ReducedStage => Projected(context, REDUCED_SPEC)
    case MinimalStage => Projected(context, MINIMAL_SPEC)
    case EssentialStage => Essential(context)
    case RefsOnlyStage => RefsOnly(context)
    case UnavailableStage => Unavailable()
  }

  /** No stage holds a reference the context does not, when the context's references are clean and at most eighty units long. */
  lemma StagesInventNoReference(context: Value, stage: Stage)
    requires RefsClean(context)
    ensures Refs(AtStage(context, stage)) <= Refs(context)
  {
    var refs := Refs(context);
    hide Projected, Essential, RefsOnly;
    match stage
    case Full =>
    case BoundedStage => ProjectedWithin(context, BOUNDED_SPEC, refs);
    case ReducedStage => ProjectedWithin(context, REDUCED_SPEC, refs);
    case MinimalStage => ProjectedWithin(context, MINIMAL_SPEC, refs);
    case EssentialStage => EssentialWithin(context, refs);
    case RefsOnlyStage => RefsOnlyWithin(context, refs);
    case UnavailableStage => NoticeHasNoReference();
  }

  lemma NoticeHasNoReference()
    ensures Refs(Unavailable()) == {}
  {
    var inner := Unavailable().props[0].value;
    hide Letters;
    forall p | p in inner.props
      ensures PropIn(p, {})
    {
    }
    PropsAre(inner.props, {});
    ValueIn("contextAvailability", inner, {});
    hide PropIn;
    PropsAre([P("contextAvailability", inner)], {});
  }

  datatype Compacted = Compacted(context: Value, stage: Stage, bytes: nat)

  /**
   * The first stage whose text fits, and the text's size; Err exactly when not
   * even the notice fits.
   */
  method CompactAiAdvisorContext(context: Value, maxBytes: nat, size: Measure) returns (result: Result<Compacted, ()>)
    ensures result.Ok? ==>
      && result.value.context == AtStage(context, result.value.stage)
      && result.value.bytes == size(result.value.context) <= maxBytes
      && exists k :: 0 <= k < |STAGES| && STAGES[k] == result.value.stage
           && forall j :: 0 <= j < k ==> size(AtStage(context, STAGES[j])) > maxBytes
    ensures result.Err? <==> forall j :: 0 <= j < |STAGES| ==> size(AtStage(context, STAGES[j])) > maxBytes
    ensures size(context) <= maxBytes ==> result == Ok(Compacted(context, Full, size(context)))
  {
    hide Projected, Essential, RefsOnly, Unavailable;
    assert STAGES[0] == Full;
    var original := size(context);
    if original <= maxBytes {
      return Ok(Compacted(context, Full, original));
    }
    var specs := [(BoundedStage, BOUNDED_SPEC), (ReducedStage, REDUCED_SPEC), (MinimalStage, MINIMAL_SPEC)];
    for i := 0 to |specs|
      invariant forall j :: 0 <= j <= i ==> size(AtStage(context, STAGES[j])) > maxBytes
    {
      var candidate := Projected(context, specs[i].1);
      assert specs[i].0 == STAGES[i + 1] && candidate == AtStage(context, STAGES[i + 1]);
      if size(candidate) <= maxBytes {
        return Ok(Compacted(candidate, specs[i].0, size(candidate)));
      }
    }
    var candidate, stage := Essential(context), EssentialStage;
    assert STAGES[4] == stage && candidate == AtStage(context, STAGES[4]);
    if size(candidate) > maxBytes {
      candidate, stage := RefsOnly(context), RefsOnlyStage;
      assert STAGES[5] == stage && candidate == AtStage(context, STAGES[5]);
      if size(candidate) > maxBytes {
        candidate, stage := Unavailable(), UnavailableStage;
        assert STAGES[6] == stage && candidate == AtStage(context, STAGES[6]);
      }
    }
    if size(candidate) > maxBytes {
      return Err(());
    }
    result := Ok(Compacted(candidate, stage, size(candidate)));
  }
}
