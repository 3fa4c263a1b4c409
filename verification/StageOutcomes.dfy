/** What each stage of a compaction still says of the rows and figures of a context. */
module StageOutcomes {
  import opened Wrappers
  import opened Utf16Text
  import opened TextClean
  import opened TextWords
  import opened ContextValues
  import opened ContextOutcomes
  import opened ContextCompaction

  // ----- reading an object that was copied and changed

  predicate DistinctKeys(props: seq<Prop>) {
    forall i, j :: 0 <= i < j < |props| ==> props[i].key != props[j].key
  }

  lemma {:induction false} LookupFirst(props: seq<Prop>, key: Field)
    requires DistinctKeys(props) && props != []
    ensures Lookup(props, key) == if props[0].key == key then props[0].value else Lookup(props[1..], key)
    decreases |props|
  {
    var n := |props| - 1;
    if n > 0 && props[n].key != key {
      LookupFirst(props[..n], key);
      assert props[..n][1..] == props[1..][..n - 1];
    } else if n > 0 {
      assert props[1..][n - 1] == props[n];
    }
  }

  lemma {:induction false} OverrideKeys(props: seq<Prop>, p: Prop)
    requires DistinctKeys(props)
    ensures DistinctKeys(Override(props, p))
    ensures forall q :: q in Override(props, p) ==> q.key == p.key || q in props
  {
    if props != [] && props[0].key != p.key {
      OverrideKeys(props[1..], p);
      var rest := Override(props[1..], p);
      assert forall q :: q in rest ==> q.key != props[0].key;
      assert forall i :: 0 <= i < |rest| ==> rest[i] in rest;
    }
  }

  lemma {:induction false} OverrideLookup(props: seq<Prop>, p: Prop, key: Field)
    requires DistinctKeys(props)
    ensures Lookup(Override(props, p), key) == if key == p.key then p.value else Lookup(props, key)
  {
    OverrideKeys(props, p);
    LookupFirst(Override(props, p), key);
    if props != [] {
      LookupFirst(props, key);
      if props[0].key != p.key {
        OverrideLookup(props[1..], p, key);
        assert Override(props, p)[1..] == Override(props[1..], p);
      } else {
        assert Override(props, p)[1..] == props[1..];
      }
    }
  }

  /** The value of a key after some changes. */
  function Changed(changes: seq<Prop>, key: Field, v: Value): Value {
    if changes == [] then v else Changed(changes[1..], key, if changes[0].key == key then changes[0].value else v)
  }

  lemma {:induction false} WithLookup(props: seq<Prop>, changes: seq<Prop>, key: Field)
    requires DistinctKeys(props)
    ensures Lookup(With(props, changes), key) == Changed(changes, key, Lookup(props, key))
    decreases |changes|
  {
    if changes != [] {
      OverrideKeys(props, changes[0]);
      OverrideLookup(props, changes[0], key);
      WithLookup(Override(props, changes[0]), changes[1..], key);
    }
  }

  lemma {:induction false} ChangedBy(a: seq<Prop>, b: seq<Prop>, key: Field, v: Value)
    ensures Changed(a + b, key, v) == Changed(b, key, Changed(a, key, v))
  {
    if a == [] {
      assert a + b == b;
    } else {
      assert (a + b)[1..] == a[1..] + b;
      ChangedBy(a[1..], b, key, if a[0].key == key then a[0].value else v);
    }
  }

  lemma {:induction false} ChangedLast(a: seq<Prop>, p: Prop, b: seq<Prop>, v: Value)
    requires forall q :: q in b ==> q.key != p.key
    ensures Changed(a + [p] + b, p.key, v) == p.value
  {
    ChangedBy(a + [p], b, p.key, v);
    ChangedBy(a, [p], p.key, v);
    Unchanged(b, p.key, p.value);
    assert [p][1..] == [];
  }

  lemma {:induction false} Unchanged(changes: seq<Prop>, key: Field, v: Value)
    requires forall q :: q in changes ==> q.key != key
    ensures Changed(changes, key, v) == v
  {
    if changes != [] {
      assert changes[0] in changes;
      Unchanged(changes[1..], key, v);
    }
  }

  lemma {:induction false} LookupLast(a: seq<Prop>, p: Prop, b: seq<Prop>)
    requires forall q :: q in b ==> q.key != p.key
    ensures Lookup(a + [p] + b, p.key) == p.value
    decreases |b|
  {
    if b == [] {
      assert a + [p] + b == a + [p];
    } else {
      var n := |b| - 1;
      assert b[n] in b;
      LookupLast(a, p, b[..n]);
      assert (a + [p] + b)[..|a| + 1 + n] == a + [p] + b[..n];
    }
  }

  // ----- what is said of a row

  function TextOf(v: Value): Text { if v.Str? then v.s else [] }

  function Listed(v: Value): seq<Value> { if v.Arr? then v.items else [] }

  /** The row is still referred to, still has its status, and its headline is cut to a length. */
  predicate KeepsRow(row: Value, kept: Value, headline: string, text: nat) {
    && Get(kept, Ref) == Get(row, Ref) && Named(kept, "status") == Named(row, "status")
    && Named(kept, headline) == Str(Words(TextOf(Named(row, headline)), text))
  }

  /** The first rows, in order. */
  predicate KeepsRows(context: Value, out: Value, name: string, n: nat, headline: string, text: nat) {
    var rows := Listed(Named(context, name));
    var kept := Listed(Named(out, name));
    && |kept| == (if |rows| <= n then |rows| else n)
    && forall i :: 0 <= i < |kept| ==> KeepsRow(rows[i], kept[i], headline, text)
  }

  lemma CleanedText(v: Value, max: nat)
    ensures Cleaned(v, max) == Str(Words(TextOf(v), max))
  {
    CleanRespaces(TextOf(v), max);
  }

  lemma NamesTellKeys(props: seq<Prop>)
    requires DistinctNames(props)
    ensures DistinctKeys(props)
  {
  }

  lemma Labels()
    ensures Other("title") != Other("status") && Other("name") != Other("status") && Other("title") != Other("ruleRef")
    ensures Other("status") != Other("ruleRef") && Other("title") != Other("recommendedAction")
    ensures Other("status") != Other("recommendedAction") && Other("title") != Other("issuer") && Other("status") != Other("issuer")
  {
    assert "status"[0] != "issuer"[0];
  }

  /** A row copied with changes to its headline and to columns other than its reference and its status. */
  lemma CopiedRow(row: Value, headline: string, text: nat, more: seq<Prop>)
    requires Proper(row) && headline != "status"
    requires forall q :: q in more ==> q.key != Ref && q.key != Other("status") && q.key != Other(headline)
    ensures KeepsRow(row, Obj(With(Spread(row), [P(headline, Cleaned(Named(row, headline), text))] + more)), headline, text)
  {
    var props := Spread(row);
    var title := P(headline, Cleaned(Named(row, headline), text));
    var changes := [title] + more;
    if row.Obj? {
      NamesTellKeys(props);
    }
    WithLookup(props, changes, Ref);
    WithLookup(props, changes, Other("status"));
    WithLookup(props, changes, Other(headline));
    hide With, Words, Cleaned;
    Unchanged(changes, Ref, Lookup(props, Ref));
    Unchanged(changes, Other("status"), Lookup(props, Other("status")));
    assert changes == [] + [title] + more;
    ChangedLast([], title, more, Lookup(props, Other(headline)));
    CleanedText(Named(row, headline), text);
  }

  lemma OneChange(props: seq<Prop>, p: Prop)
    ensures With(props, [p]) == Override(props, p)
  {
    assert [p][1..] == [];
  }

  lemma ObligationKept(row: Value, text: nat)
    requires Proper(row)
    ensures KeepsRow(row, Obligation(row, text), "title", text)
  {
    var title := P("title", Cleaned(Named(row, "title"), text));
    var more := [P("ruleRef", Cleaned(Named(row, "ruleRef"), 100)), Prop(SourceRefs, Arr(Rows(Get(row, SourceRefs), 8)))];
    Labels();
    hide With, KeepsRow, Cleaned, Proper;
    CopiedRow(row, "title", text, more);
    assert [title] + more == [title, more[0], more[1]];
  }

  lemma RiskKept(row: Value, text: nat)
    requires Proper(row)
    ensures KeepsRow(row, Risk(row, text), "title", text)
  {
    var title := P("title", Cleaned(Named(row, "title"), text));
    var action := if text + 60 < 220 then text + 60 else 220;
    var more := [P("recommendedAction", Cleaned(Named(row, "recommendedAction"), action))];
    Labels();
    hide With, KeepsRow, Cleaned, Proper;
    CopiedRow(row, "title", text, more);
    assert [title] + more == [title, more[0]];
  }

  lemma ControlKept(row: Value, text: nat)
    requires Proper(row)
    ensures KeepsRow(row, ContextCompaction.Control(row, text), "name", text)
  {
    var name := P("name", Cleaned(Named(row, "name"), text));
    Labels();
    hide With, KeepsRow, Cleaned, Proper;
    CopiedRow(row, "name", text, []);
    OneChange(Spread(row), name);
    assert [name] + [] == [name];
  }

  lemma TenderKept(row: Value, text: nat)
    requires Proper(row)
    ensures KeepsRow(row, Tender(row, text), "title", text)
  {
    var title := P("title", Cleaned(Named(row, "title"), text));
    var more := [P("issuer", Cleaned(Named(row, "issuer"), 100))];
    Labels();
    hide With, KeepsRow, Cleaned, Proper;
    CopiedRow(row, "title", text, more);
    assert [title] + more == [title, more[0]];
  }

  /** A row built from its reference, its headline, its status and other columns. */
  lemma PickedRow(row: Value, headline: string, text: nat, a: seq<Prop>, b: seq<Prop>)
    requires headline != "status"
    requires forall q :: q in a || q in b ==> q.key != Ref && q.key != Other("status") && q.key != Other(headline)
    ensures KeepsRow(row, Obj([RefOf(row), P(headline, Cleaned(Named(row, headline), text))] + a + [P("status", Named(row, "status"))] + b),
                     headline, text)
  {
    var (r, h, st) := (RefOf(row), P(headline, Cleaned(Named(row, headline), text)), P("status", Named(row, "status")));
    var all := [r, h] + a + [st] + b;
    assert all == [] + [r] + ([h] + a + [st] + b);
    assert all == [r] + [h] + (a + [st] + b);
    assert all == ([r, h] + a) + [st] + b;
    hide Words, Cleaned;
    LookupLast([], r, [h] + a + [st] + b);
    LookupLast([r], h, a + [st] + b);
    LookupLast([r, h] + a, st, b);
    CleanedText(Named(row, headline), text);
  }

  // ----- sections

  lemma {:induction false} LookupProper(props: seq<Prop>, key: Field)
    requires forall k :: 0 <= k < |props| ==> Proper(props[k].value)
    ensures Proper(Lookup(props, key))
    decreases |props|
  {
    if props != [] && props[|props| - 1].key != key {
      LookupProper(props[..|props| - 1], key);
    }
  }

  lemma RowProper(context: Value, name: string, i: nat)
    requires Proper(context) && i < |Listed(Named(context, name))|
    ensures Proper(Listed(Named(context, name))[i])
  {
    if context.Obj? {
      LookupProper(context.props, Other(name));
    }
  }

  /** A section made row by row keeps its rows when each is kept. */
  lemma SectionKept(context: Value, out: Value, name: string, n: nat, headline: string, text: nat, f: Value -> Value)
    requires Named(out, name) == Arr(Each(Rows(Named(context, name), n), f))
    requires forall i :: 0 <= i < |Listed(Named(context, name))| ==> KeepsRow(Listed(Named(context, name))[i], f(Listed(Named(context, name))[i]), headline, text)
    ensures KeepsRows(context, out, name, n, headline, text)
  {
    hide KeepsRow;
  }

  lemma RowNames()
    ensures Other("obligations") != Other("risks") && Other("obligations") != Other("controls") && Other("obligations") != Other("tenders")
    ensures Other("obligations") != Other("sources") && Other("risks") != Other("controls") && Other("risks") != Other("tenders")
    ensures Other("risks") != Other("sources") && Other("controls") != Other("tenders") && Other("controls") != Other("sources")
    ensures Other("tenders") != Other("sources")
  {
    assert "tenders"[0] != "sources"[0];
  }

  /** A projection copies the context and changes the sections it knows; each section is found under its name. */
  lemma ProjectedSection(context: Value, a: seq<Prop>, p: Prop, b: seq<Prop>)
    requires Proper(context) && forall q :: q in b ==> q.key != p.key
    ensures Get(Obj(With(Spread(context), a + [p] + b)), p.key) == p.value
  {
    if context.Obj? {
      NamesTellKeys(context.props);
    }
    WithLookup(Spread(context), a + [p] + b, p.key);
    ChangedLast(a, p, b, Lookup(Spread(context), p.key));
  }

  /** What comes before the rows in a projection. */
  function Before(context: Value, spec: Spec): seq<Prop> {
    PartSections(context, spec) + BoundedSections(context, NestedOf(spec))
  }

  lemma ProjectedObligations(context: Value, spec: Spec)
    requires Proper(context)
    ensures KeepsRows(context, Projected(context, spec), "obligations", spec.obligations, "title", spec.stringLimit)
  {
    var (before, rows) := (Before(context, spec), RowSections(context, spec));
    RowNames();
    hide PartSections, BoundedSections, Cleaned, Proper, KeepsRow, With;
    assert before + rows == (before + rows[..0]) + [rows[0]] + rows[1..];
    ProjectedSection(context, before + rows[..0], rows[0], rows[1..]);
    forall i | 0 <= i < |Listed(Named(context, "obligations"))|
      ensures KeepsRow(Listed(Named(context, "obligations"))[i], Obligation(Listed(Named(context, "obligations"))[i], spec.stringLimit), "title", spec.stringLimit)
    {
      RowProper(context, "obligations", i);
      ObligationKept(Listed(Named(context, "obligations"))[i], spec.stringLimit);
    }
    SectionKept(context, Projected(context, spec), "obligations", spec.obligations, "title", spec.stringLimit,
                (row: Value) => Obligation(row, spec.stringLimit));
  }

  lemma ProjectedRisks(context: Value, spec: Spec)
    requires Proper(context)
    ensures KeepsRows(context, Projected(context, spec), "risks", spec.risks, "title", spec.stringLimit)
  {
    var (before, rows) := (Before(context, spec), RowSections(context, spec));
    RowNames();
    hide PartSections, BoundedSections, Cleaned, Proper, KeepsRow, With;
    assert before + rows == (before + rows[..1]) + [rows[1]] + rows[2..];
    ProjectedSection(context, before + rows[..1], rows[1], rows[2..]);
    forall i | 0 <= i < |Listed(Named(context, "risks"))|
      ensures KeepsRow(Listed(Named(context, "risks"))[i], Risk(Listed(Named(context, "risks"))[i], spec.stringLimit), "title", spec.stringLimit)
    {
      RowProper(context, "risks", i);
      RiskKept(Listed(Named(context, "risks"))[i], spec.stringLimit);
    }
    SectionKept(context, Projected(context, spec), "risks", spec.risks, "title", spec.stringLimit,
                (row: Value) => Risk(row, spec.stringLimit));
  }

  lemma ProjectedControls(context: Value, spec: Spec)
    requires Proper(context)
    ensures KeepsRows(context, Projected(context, spec), "controls", spec.controls, "name", spec.stringLimit)
  {
    var (before, rows) := (Before(context, spec), RowSections(context, spec));
    RowNames();
    hide PartSections, BoundedSections, Cleaned, Proper, KeepsRow, With;
    assert before + rows == (before + rows[..2]) + [rows[2]] + rows[3..];
    ProjectedSection(context, before + rows[..2], rows[2], rows[3..]);
    forall i | 0 <= i < |Listed(Named(context, "controls"))|
      ensures KeepsRow(Listed(Named(context, "controls"))[i], ContextCompaction.Control(Listed(Named(context, "controls"))[i], spec.stringLimit), "name", spec.stringLimit)
    {
      RowProper(context, "controls", i);
      ControlKept(Listed(Named(context, "controls"))[i], spec.stringLimit);
    }
    SectionKept(context, Projected(context, spec), "controls", spec.controls, "name", spec.stringLimit,
                (row: Value) => ContextCompaction.Control(row, spec.stringLimit));
  }

  lemma ProjectedTenders(context: Value, spec: Spec)
    requires Proper(context)
    ensures KeepsRows(context, Projected(context, spec), "tenders", spec.tenders, "title", spec.stringLimit)
  {
    var (before, rows) := (Before(context, spec), RowSections(context, spec));
    RowNames();
    hide PartSections, BoundedSections, Cleaned, Proper, KeepsRow, With;
    assert before + rows == (before + rows[..3]) + [rows[3]] + rows[4..];
    ProjectedSection(context, before + rows[..3], rows[3], rows[4..]);
    forall i | 0 <= i < |Listed(Named(context, "tenders"))|
      ensures KeepsRow(Listed(Named(context, "tenders"))[i], Tender(Listed(Named(context, "tenders"))[i], spec.stringLimit), "title", spec.stringLimit)
    {
      RowProper(context, "tenders", i);
      TenderKept(Listed(Named(context, "tenders"))[i], spec.stringLimit);
    }
    SectionKept(context, Projected(context, spec), "tenders", spec.tenders, "title", spec.stringLimit,
                (row: Value) => Tender(row, spec.stringLimit));
  }

  /** The rows that are left of each kind, with the length of their headlines. */
  predicate RowsLeft(context: Value, out: Value, obligations: nat, risks: nat, controls: nat, tenders: nat, text: nat) {
    && KeepsRows(context, out, "obligations", obligations, "title", text) && KeepsRows(context, out, "risks", risks, "title", text)
    && KeepsRows(context, out, "controls", controls, "name", text) && KeepsRows(context, out, "tenders", tenders, "title", text)
  }

  lemma ProjectedRowsLeft(context: Value, spec: Spec)
    requires Proper(context)
    ensures RowsLeft(context, Projected(context, spec), spec.obligations, spec.risks, spec.controls, spec.tenders, spec.stringLimit)
  {
    hide KeepsRows, Proper, Projected;
    ProjectedObligations(context, spec);
    ProjectedRisks(context, spec);
    ProjectedControls(context, spec);
    ProjectedTenders(context, spec);
  }

  // ----- the essential projection

  lemma EssentialSection(a: seq<Prop>, p: Prop, b: seq<Prop>)
    requires forall q :: q in b ==> q.key != p.key
    ensures Get(Obj(a + [p] + b), p.key) == p.value
  {
    LookupLast(a, p, b);
  }

  lemma Columns()
    ensures Other("priority") != Other("status") && Other("dueAt") != Other("status") && Other("severity") != Other("status")
    ensures Other("evidenceHealth") != Other("status") && Other("closingAt") != Other("status")
    ensures Other("missingRequired") != Other("status") && Other("mandatoryCount") != Other("status")
    ensures Other("priority") != Other("title") && Other("dueAt") != Other("title") && Other("severity") != Other("title")
    ensures Other("closingAt") != Other("title") && Other("missingRequired") != Other("title") && Other("mandatoryCount") != Other("title")
    ensures Other("evidenceHealth") != Other("name") && Other("dueAt") != Other("name")
  {
    assert "dueAt"[0] != "title"[0];
  }

  lemma KeptObligationKept(row: Value, keep: Keep)
    ensures KeepsRow(row, KeptObligation(row, keep, ["status", "priority"]), "title", keep.text)
  {
    var (status, priority) := (P("status", Named(row, "status")), P("priority", Named(row, "priority")));
    var tail := [priority] + PickOrNull(row, ["dueAt"]) + [Prop(SourceRefs, Arr(Rows(Get(row, SourceRefs), keep.sourceRefs)))];
    Labels();
    Columns();
    hide KeepsRow, Cleaned;
    assert Pick(row, ["status", "priority"]) == [status, priority];
    assert PickOrNull(row, ["dueAt"]) == [P("dueAt", OrNull(Named(row, "dueAt")))];
    PickedRow(row, "title", keep.text, [], tail);
    var head := [RefOf(row), P("title", Cleaned(Named(row, "title"), keep.text))];
    assert head + [] + [status] + tail == KeptObligation(row, keep, ["status", "priority"]).props;
  }

  lemma KeptRiskKept(row: Value, keep: Keep)
    ensures KeepsRow(row, KeptRisk(row, keep, true), "title", keep.text)
  {
    var (severity, status) := (P("severity", Named(row, "severity")), P("status", Named(row, "status")));
    var tail := [P("dueAt", OrNull(Named(row, "dueAt"))), P("recommendedAction", Cleaned(Named(row, "recommendedAction"), 130))];
    Labels();
    Columns();
    hide KeepsRow, Cleaned;
    assert Pick(row, ["severity", "status"]) == [severity, status];
    assert PickOrNull(row, ["dueAt"]) == [tail[0]];
    PickedRow(row, "title", keep.text, [severity], tail);
    var head := [RefOf(row), P("title", Cleaned(Named(row, "title"), keep.text))];
    assert head + [severity] + [status] + tail == KeptRisk(row, keep, true).props;
  }

  lemma KeptControlKept(row: Value, keep: Keep)
    ensures KeepsRow(row, KeptRow(row, "name", keep.text, ["status", "evidenceHealth"], ["dueAt"]), "name", keep.text)
  {
    var status := P("status", Named(row, "status"));
    var tail := [P("evidenceHealth", Named(row, "evidenceHealth")), P("dueAt", OrNull(Named(row, "dueAt")))];
    Labels();
    Columns();
    hide KeepsRow, Cleaned;
    assert Pick(row, ["status", "evidenceHealth"]) == [status, tail[0]];
    assert PickOrNull(row, ["dueAt"]) == [tail[1]];
    PickedRow(row, "name", keep.text, [], tail);
    var head := [RefOf(row), P("name", Cleaned(Named(row, "name"), keep.text))];
    assert head + [] + [status] + tail == KeptRow(row, "name", keep.text, ["status", "evidenceHealth"], ["dueAt"]).props;
  }

  lemma KeptTenderKept(row: Value, keep: Keep)
    ensures KeepsRow(row, KeptRow(row, "title", keep.text, ["status", "missingRequired", "mandatoryCount"], ["closingAt"]), "title", keep.text)
  {
    var status := P("status", Named(row, "status"));
    var tail := [P("missingRequired", Named(row, "missingRequired")), P("mandatoryCount", Named(row, "mandatoryCount")),
                 P("closingAt", OrNull(Named(row, "closingAt")))];
    Labels();
    Columns();
    hide KeepsRow, Cleaned;
    assert Pick(row, ["status", "missingRequired", "mandatoryCount"]) == [status, tail[0], tail[1]];
    assert PickOrNull(row, ["closingAt"]) == [tail[2]];
    PickedRow(row, "title", keep.text, [], tail);
    var head := [RefOf(row), P("title", Cleaned(Named(row, "title"), keep.text))];
    assert head + [] + [status] + tail
        == KeptRow(row, "title", keep.text, ["status", "missingRequired", "mandatoryCount"], ["closingAt"]).props;
  }

  function EssentialFirst(context: Value): seq<Prop> {
    EssentialParts(context) + BoundedSections(context, ESSENTIAL)
  }

  function EssentialKeep(): Keep { Keep(4, 4, 3, 3, 2, 4, 110, 100) }

  lemma KeptRowNames(context: Value, keep: Keep)
    ensures var rows := KeptRows(context, keep, true);
            && |rows| == 5 && rows[0].key == Other("obligations") && rows[1].key == Other("risks")
            && rows[2].key == Other("controls") && rows[3].key == Other("tenders") && rows[4].key == Other("sources")
  {
  }

  lemma EssentialRow(context: Value, j: nat)
    requires j < 4
    ensures var rows := KeptRows(context, EssentialKeep(), true);
            |rows| == 5 && Get(Essential(context), rows[j].key) == rows[j].value
  {
    hide EssentialParts, BoundedSections, KeptRows, Get;
    var (before, rows) := (EssentialFirst(context), KeptRows(context, EssentialKeep(), true));
    KeptRowNames(context, EssentialKeep());
    RowNames();
    forall q | q in rows[j + 1..] ensures q.key != rows[j].key {
      var i :| 0 <= i < |rows[j + 1..]| && rows[j + 1..][i] == q;
      assert q == rows[j + 1 + i];
    }
    assert before + rows == (before + rows[..j]) + [rows[j]] + rows[j + 1..];
    EssentialSection(before + rows[..j], rows[j], rows[j + 1..]);
  }

  lemma EssentialObligations(context: Value)
    ensures KeepsRows(context, Essential(context), "obligations", 4, "title", 110)
  {
    var keep := EssentialKeep();
    EssentialRow(context, 0);
    forall i | 0 <= i < |Listed(Named(context, "obligations"))|
      ensures KeepsRow(Listed(Named(context, "obligations"))[i], KeptObligation(Listed(Named(context, "obligations"))[i], keep, ["status", "priority"]),
                       "title", 110)
    {
      KeptObligationKept(Listed(Named(context, "obligations"))[i], keep);
    }
    hide Essential, KeepsRow, KeptObligation, KeptRisk, KeptRow, Cleaned;
    SectionKept(context, Essential(context), "obligations", 4, "title", 110, (row: Value) => KeptObligation(row, keep, ["status", "priority"]));
  }

  lemma EssentialRisks(context: Value)
    ensures KeepsRows(context, Essential(context), "risks", 3, "title", 110)
  {
    var keep := EssentialKeep();
    EssentialRow(context, 1);
    forall i | 0 <= i < |Listed(Named(context, "risks"))|
      ensures KeepsRow(Listed(Named(context, "risks"))[i], KeptRisk(Listed(Named(context, "risks"))[i], keep, true),
                       "title", 110)
    {
      KeptRiskKept(Listed(Named(context, "risks"))[i], keep);
    }
    hide Essential, KeepsRow, KeptObligation, KeptRisk, KeptRow, Cleaned;
    SectionKept(context, Essential(context), "risks", 3, "title", 110, (row: Value) => KeptRisk(row, keep, true));
  }

  lemma EssentialControls(context: Value)
    ensures KeepsRows(context, Essential(context), "controls", 3, "name", 110)
  {
    var keep := EssentialKeep();
    EssentialRow(context, 2);
    forall i | 0 <= i < |Listed(Named(context, "controls"))|
      ensures KeepsRow(Listed(Named(context, "controls"))[i], KeptRow(Listed(Named(context, "controls"))[i], "name", keep.text, ["status", "evidenceHealth"], ["dueAt"]),
                       "name", 110)
    {
      KeptControlKept(Listed(Named(context, "controls"))[i], keep);
    }
    hide Essential, KeepsRow, KeptObligation, KeptRisk, KeptRow, Cleaned;
    SectionKept(context, Essential(context), "controls", 3, "name", 110, (row: Value) => KeptRow(row, "name", keep.text, ["status", "evidenceHealth"], ["dueAt"]));
  }

  lemma EssentialTenders(context: Value)
    ensures KeepsRows(context, Essential(context), "tenders", 2, "title", 110)
  {
    var keep := EssentialKeep();
    EssentialRow(context, 3);
    forall i | 0 <= i < |Listed(Named(context, "tenders"))|
      ensures KeepsRow(Listed(Named(context, "tenders"))[i], KeptRow(Listed(Named(context, "tenders"))[i], "title", keep.text, ["status", "missingRequired", "mandatoryCount"], ["closingAt"]),
                       "title", 110)
    {
      KeptTenderKept(Listed(Named(context, "tenders"))[i], keep);
    }
    hide Essential, KeepsRow, KeptObligation, KeptRisk, KeptRow, Cleaned;
    SectionKept(context, Essential(context), "tenders", 2, "title", 110, (row: Value) => KeptRow(row, "title", keep.text, ["status", "missingRequired", "mandatoryCount"], ["closingAt"]));
  }

  /** What is left of the rows stage by stage: the first of each kind, in order, with their references, headlines and statuses. */
  lemma StagesKeepRows(context: Value)
    requires Proper(context)
    ensures RowsLeft(context, AtStage(context, BoundedStage), 12, 10, 10, 8, 160)
    ensures RowsLeft(context, AtStage(context, ReducedStage), 8, 6, 6, 5, 130)
    ensures RowsLeft(context, AtStage(context, MinimalStage), 6, 4, 4, 3, 100)
    ensures RowsLeft(context, AtStage(context, EssentialStage), 4, 3, 3, 2, 110)
  {
    hide KeepsRows, Proper, Projected, Essential;
    ProjectedRowsLeft(context, BOUNDED_SPEC);
    ProjectedRowsLeft(context, REDUCED_SPEC);
    ProjectedRowsLeft(context, MINIMAL_SPEC);
    EssentialObligations(context);
    EssentialRisks(context);
    EssentialControls(context);
    EssentialTenders(context);
  }

  // ----- figures

  predicate Without(props: seq<Prop>, key: Field) {
    forall q :: q in props ==> q.key != key
  }

  lemma WithoutAll(a: seq<Prop>, b: seq<Prop>, c: seq<Prop>, key: Field)
    requires Without(a, key) && Without(b, key) && Without(c, key)
    ensures Without(a + b + c, key)
  {
  }

  lemma SplitParts(a: seq<Prop>, b: seq<Prop>, c: seq<Prop>, j: nat)
    requires j < |a|
    ensures a + b + c == a[..j] + [a[j]] + (a[j + 1..] + b + c)
  {
  }

  lemma Initials()
    ensures Other("finance") != Other("profile") && Other("finance") != Other("tenders") && Other("finance") != Other("sources")
  {
    assert "finance"[0] != "profile"[0] && "finance"[0] != "tenders"[0] && "finance"[0] != "sources"[0];
  }

  lemma SectionsAreOthers(context: Value, spec: Spec, limits: Limits, keep: Keep)
    ensures Without(BoundedSections(context, limits), Other("finance"))
    ensures Without(RowSections(context, spec), Other("finance"))
    ensures Without(KeptRows(context, keep, true), Other("finance"))
  {
    hide Bounded, Cleaned;
    Initials();
    RowsAreOthers(context, spec);
    KeptRowNames(context, keep);
    hide KeptRows, RowSections;
  }

  lemma RowsAreOthers(context: Value, spec: Spec)
    ensures Without(RowSections(context, spec), Other("finance"))
  {
    hide Cleaned;
    Initials();
  }

  /** Every figure of the finances is passed on as it is while they are projected; only the list of receivables is cut. */
  lemma FiguresKept(context: Value, spec: Spec, key: Field)
    requires Proper(context) && Named(context, "finance").Obj? && key != Other("topReceivables")
    ensures Get(Named(Projected(context, spec), "finance"), key) == Get(Named(context, "finance"), key)
    ensures Get(Named(Essential(context), "finance"), key) == Get(Named(context, "finance"), key)
  {
    hide Bounded, Cleaned;
    ProjectedFinance(context, spec);
    EssentialFinanceFound(context);
    var finance := Named(context, "finance");
    if context.Obj? {
      LookupProper(context.props, Other("finance"));
    }
    NamesTellKeys(finance.props);
    CutFinance(finance, spec.receivables, key);
    CutFinance(finance, 0, key);
    var cut := CompactFinance(finance, 0).props;
    OverrideKeys(finance.props, P("topReceivables", Arr(Each(Rows(Named(finance, "topReceivables"), 0), ReceivableRow))));
    OverrideLookup(cut, P("topReceivables", Arr([])), key);
  }

  lemma CutFinance(finance: Value, n: nat, key: Field)
    requires finance.Obj? && DistinctKeys(finance.props) && key != Other("topReceivables")
    ensures Get(CompactFinance(finance, n), key) == Get(finance, key)
  {
    OverrideLookup(finance.props, P("topReceivables", Arr(Each(Rows(Named(finance, "topReceivables"), n), ReceivableRow))), key);
  }

  lemma ProjectedFinance(context: Value, spec: Spec)
    requires Proper(context)
    ensures Named(Projected(context, spec), "finance") == CompactFinance(Named(context, "finance"), spec.receivables)
  {
    var (parts, b, c) := (PartSections(context, spec), BoundedSections(context, NestedOf(spec)), RowSections(context, spec));
    PartsHoldFinance(context, spec);
    SectionsAreOthers(context, spec, NestedOf(spec), EssentialKeep());
    hide PartSections, BoundedSections, RowSections, Proper, With, CompactFinance;
    WithoutAll(parts[3..], b, c, Other("finance"));
    SplitParts(parts, b, c, 2);
    ProjectedSection(context, parts[..2], parts[2], parts[3..] + b + c);
  }

  lemma PartsHoldFinance(context: Value, spec: Spec)
    ensures var parts := PartSections(context, spec);
            && |parts| == 5 && parts[2] == P("finance", CompactFinance(Named(context, "finance"), spec.receivables))
            && Without(parts[3..], Other("finance"))
  {
    hide Bounded, Cleaned;
  }

  lemma EssentialFinanceFound(context: Value)
    ensures Named(Essential(context), "finance") == EssentialFinance(Named(context, "finance"))
  {
    var (parts, b, c) := (EssentialParts(context), BoundedSections(context, ESSENTIAL), KeptRows(context, EssentialKeep(), true));
    EssentialPartsHoldFinance(context);
    SectionsAreOthers(context, BOUNDED_SPEC, ESSENTIAL, EssentialKeep());
    hide EssentialParts, BoundedSections, KeptRows, EssentialFinance;
    WithoutAll(parts[4..], b, c, Other("finance"));
    SplitParts(parts, b, c, 3);
    EssentialSection(parts[..3], parts[3], parts[4..] + b + c);
  }

  lemma EssentialPartsHoldFinance(context: Value)
    ensures var parts := EssentialParts(context);
            && |parts| == 6 && parts[3] == P("finance", EssentialFinance(Named(context, "finance")))
            && Without(parts[4..], Other("finance"))
  {
    hide Bounded, Cleaned;
  }
}
