/** Which bodies are approved as standing policies, and what is approved then. */
module PolicyOutcomes {
  import opened Wrappers
  import opened Utf16Text
  import opened TextClean
  import opened TextWords
  import opened TaskTables
  import opened AutonomyPolicy

  /** A nonempty list of the three known scopes, none twice. */
  predicate ScopeList(scopes: Option<seq<Scope>>) {
    && scopes.Some? && scopes.value != []
    && (forall s :: s in scopes.value ==> s in {TasksScope, DraftsScope, RecordsScope})
    && (forall s :: s in scopes.value ==> multiset(scopes.value)[s] == 1)
  }

  /** A text without controls, no longer than allowed. */
  predicate TextFits(t: Text, max: nat) {
    |t| <= max && forall c :: c in t ==> c > 0x1F && c != 0x7F
  }

  /** A template with exactly its three columns: a title that is not blank, perhaps a description, and a priority from one to three. */
  predicate TemplateFits(t: TemplateField) {
    && t.TemplateField? && t.exact
    && t.title.IsText? && TextFits(t.title.t, 160) && (exists c :: c in t.title.t && !Gap(c))
    && (t.description == NoText || (t.description.IsText? && TextFits(t.description.t, 1200)))
    && (t.priority == NoNumber || (t.priority.Whole? && 1 <= t.priority.n <= 3))
  }

  predicate MayApprove(body: PolicyBody, now: Time) {
    && body.plain && body.exact && ScopeList(body.scopes)
    && body.expires.Date? && now < body.expires.at <= now + 2_592_000_000
    && (body.interval == NoNumber || (body.interval.Whole? && 1 <= body.interval.n <= 168))
    && (body.maxDaily == NoNumber || (body.maxDaily.Whole? && 1 <= body.maxDaily.n <= 5))
    && (if TasksScope in body.scopes.value then body.delegation.Delegation? && TemplateFits(body.template)
        else body.delegation == NoDelegation && body.template == NoTemplate)
  }

  /** What is approved: what was asked for, an interval of a day and five runs a day by default, and the template's words. */
  predicate Approves(body: PolicyBody, now: Time, v: Value)
    requires MayApprove(body, now)
  {
    && body.scopes == Some(v.scopes) && body.expires == Date(v.expires)
    && v.intervalHours == (if body.interval == NoNumber then 24 else body.interval.n)
    && v.maxDailyRuns == (if body.maxDaily == NoNumber then 5 else body.maxDaily.n)
    && (if TasksScope in v.scopes
        then v.delegation.Some? && body.delegation == Delegation(v.delegation.value) && v.template.Some?
             && TemplateSays(body.template, v.template.value)
        else v.delegation == None && v.template == None)
  }

  predicate TemplateSays(t: TemplateField, n: Template)
    requires TemplateFits(t)
  {
    && n.title == Respaced(t.title.t)
    && n.description == (if t.description == NoText || Respaced(t.description.t) == [] then None else Some(Respaced(t.description.t)))
    && n.priority == (if t.priority == NoNumber then 2 else t.priority.n)
  }

  lemma {:induction false} DistinctMultiset(scopes: seq<Scope>)
    ensures (forall i, j :: 0 <= i < j < |scopes| ==> scopes[i] != scopes[j])
       <==> (forall s :: s in scopes ==> multiset(scopes)[s] == 1)
    decreases |scopes|
  {
    if scopes != [] {
      var n := |scopes| - 1;
      var (before, last) := (scopes[..n], scopes[n]);
      assert scopes == before + [last];
      assert forall s :: multiset(scopes)[s] == multiset(before)[s] + (if s == last then 1 else 0);
      DistinctMultiset(before);
      if forall s :: s in scopes ==> multiset(scopes)[s] == 1 {
        assert last !in before;
        assert forall s :: s in before ==> s in scopes && multiset(before)[s] == 1;
        forall i, j | 0 <= i < j < |scopes| ensures scopes[i] != scopes[j] {
          if j == n { assert scopes[i] in before; } else { assert before[i] != before[j]; }
        }
      }
      if forall i, j :: 0 <= i < j < |scopes| ==> scopes[i] != scopes[j] {
        assert last !in before;
        assert forall i, j :: 0 <= i < j < |before| ==> before[i] != before[j];
        forall s | s in scopes ensures multiset(scopes)[s] == 1 {
          assert s in before || s == last;
        }
      }
    }
  }

  lemma {:induction false} DistinctSize(scopes: seq<Scope>)
    requires forall i, j :: 0 <= i < j < |scopes| ==> scopes[i] != scopes[j]
    ensures |set s | s in scopes| == |scopes|
    decreases |scopes|
  {
    if scopes != [] {
      var n := |scopes| - 1;
      DistinctSize(scopes[..n]);
      assert (set s | s in scopes) == (set s | s in scopes[..n]) + {scopes[n]};
    }
  }

  lemma SubsetSize<T>(a: set<T>, b: set<T>)
    requires a <= b
    ensures |a| <= |b|
  {
    assert b == a + (b - a);
  }

  /** Three known scopes make a list without repeats no longer than three. */
  lemma ShortList(scopes: seq<Scope>)
    requires forall i, j :: 0 <= i < j < |scopes| ==> scopes[i] != scopes[j]
    requires forall s :: s in scopes ==> s in {TasksScope, DraftsScope, RecordsScope}
    ensures |scopes| <= 3
  {
    DistinctSize(scopes);
    SubsetSize(set s | s in scopes, {TasksScope, DraftsScope, RecordsScope});
  }

  lemma KnownScopes(scopes: seq<Scope>)
    ensures (forall i :: 0 <= i < |scopes| ==> Known(scopes[i])) <==> forall s :: s in scopes ==> s in {TasksScope, DraftsScope, RecordsScope}
  {
    forall s | s in scopes ensures Known(s) <==> s in {TasksScope, DraftsScope, RecordsScope} {
      match s
      case TasksScope =>
      case DraftsScope =>
      case RecordsScope =>
      case UnknownScope(_) =>
    }
  }

  lemma ScopesExactly(scopes: Option<seq<Scope>>)
    ensures ScopesOk(scopes) <==> ScopeList(scopes)
  {
    if scopes.Some? {
      DistinctMultiset(scopes.value);
      KnownScopes(scopes.value);
      if ScopeList(scopes) {
        ShortList(scopes.value);
      }
      hide Known;
    }
  }

  lemma TitleBlank(t: Text)
    requires forall c :: c in t ==> !Control(c)
    ensures TrimEnd(TrimStart(t)) != [] <==> exists c :: c in t && !Gap(c)
  {
    TrimKeepsWords(t);
    TrimKeepsWords(TrimStart(t));
    RespacedEnds(t);
    RespacedEnds(TrimEnd(TrimStart(t)));
    var trimmed := TrimEnd(TrimStart(t));
    TrimmedStart(t);
    TrimmedEnd(TrimStart(t));
    if trimmed != [] {
      assert trimmed[0] == TrimStart(t)[0];
      assert !White(trimmed[0]) && trimmed[0] in TrimStart(t);
      assert !Gap(trimmed[0]) && trimmed[0] in trimmed;
    }
  }

  lemma TemplateExactly(t: TemplateField)
    ensures TemplateOk(t) <==> TemplateFits(t)
    ensures TemplateOk(t) ==> TemplateSays(t, NormalTemplate(t))
  {
    if t.TemplateField? && t.title.IsText? && Plain(t.title.t, MAX_TITLE) {
      TitleBlank(t.title.t);
      TemplateRespaces(t.title.t);
    }
    if t.TemplateField? && t.description.IsText? && Plain(t.description.t, MAX_DESCRIPTION) {
      TemplateRespaces(t.description.t);
    }
    hide TrimStart, TrimEnd, Collapse, Respaced, Gap;
  }

  /** A body is approved exactly when it is a policy within its bounds, and then as it was asked for. */
  lemma ApprovedExactly(body: PolicyBody, now: Time)
    ensures NormalizeAutonomyPolicy(body, now).Some? <==> MayApprove(body, now)
    ensures NormalizeAutonomyPolicy(body, now).Some? ==> Approves(body, now, NormalizeAutonomyPolicy(body, now).value)
  {
    ScopesExactly(body.scopes);
    TemplateExactly(body.template);
    assert ScopesOk(body.scopes) ==> body.scopes.Some?;
    hide ScopesOk, ScopeList, TemplateOk, TemplateFits, NormalTemplate, TemplateSays;
  }

  /** The terms a run goes by are those of the approved policy. */
  lemma TermsSay(v: Value)
    ensures var t := TermsOf(v);
            && t.expires == v.expires && t.intervalHours == v.intervalHours && t.maxDailyRuns == v.maxDailyRuns
            && (t.tasks <==> v.template.Some?)
            && (v.delegation.Some? ==> t.delegation == v.delegation.value)
            && (v.template.Some? ==>
                  t.template == Payload(v.template.value.title, v.template.value.description, v.template.value.priority, None))
  {
  }
}
