/** Approving a standing policy, and checking the stored document again before every run. */
module AutonomyPolicy {
  import opened Wrappers
  import opened Utf16Text
  import opened TextClean
  import opened TaskTables
  import opened TaskPipeline

  datatype Scope = TasksScope | DraftsScope | RecordsScope | UnknownScope(name: nat)

  /** A field of an unchecked document. A number or a text that is null counts as absent, as its default applies. */
  datatype WholeField = NoNumber | Whole(n: int) | NotWhole
  datatype TextField = NoText | IsText(t: Text) | NotText
  datatype DateField = NotADate | Date(at: Time)
  datatype DelegationField = NoDelegation | Delegation(id: Id) | BadDelegation

  /** A template as sent or stored; `NoTemplate` is undefined, and `exact` says it has no key but those allowed. */
  datatype TemplateField =
    | NoTemplate
    | NotPlain
    | TemplateField(exact: bool, title: TextField, description: TextField, priority: WholeField)

  datatype PolicyBody = PolicyBody(
    plain: bool, exact: bool, scopes: Option<seq<Scope>>, expires: DateField,
    interval: WholeField, maxDaily: WholeField, delegation: DelegationField, template: TemplateField)

  datatype Template = Template(title: Text, description: Option<Text>, priority: nat)

  datatype Value = Value(
    scopes: seq<Scope>, expires: Time, intervalHours: nat, maxDailyRuns: nat, delegation: Option<Id>, template: Option<Template>)

  predicate Known(s: Scope) { !s.UnknownScope? }

  predicate ScopesOk(scopes: Option<seq<Scope>>) {
    && scopes.Some? && 1 <= |scopes.value| <= 3
    && (forall i, j :: 0 <= i < j < |scopes.value| ==> scopes.value[i] != scopes.value[j])
    && (forall i :: 0 <= i < |scopes.value| ==> Known(scopes.value[i]))
  }

  function OrDefault(n: WholeField, default: int): WholeField {
    if n.NoNumber? then Whole(default) else n
  }

  predicate Plain(t: Text, max: nat) {
    |t| <= max && forall c :: c in t ==> !Control(c)
  }

  predicate TemplateOk(t: TemplateField) {
    && t.TemplateField? && t.exact
    && t.title.IsText? && TrimEnd(TrimStart(t.title.t)) != [] && Plain(t.title.t, MAX_TITLE)
    && (t.description.NoText? || (t.description.IsText? && Plain(t.description.t, MAX_DESCRIPTION)))
    && (t.priority.NoNumber? || (t.priority.Whole? && 1 <= t.priority.n <= 3))
  }

  function NormalTemplate(t: TemplateField): Template
    requires TemplateOk(t)
  {
    Template(TemplateText(t.title.t),
             if t.description.NoText? then None else Optional(TemplateText(t.description.t)),
             OrDefault(t.priority, 2).n)
  }

  /** The document a body asks for; None for anything that is not exactly a policy. */
  function NormalizeAutonomyPolicy(body: PolicyBody, now: Time): Option<Value> {
    var interval := OrDefault(body.interval, 24);
    var maxDaily := OrDefault(body.maxDaily, 5);
    if !body.plain || !body.exact || !ScopesOk(body.scopes) then None
    else if body.expires.NotADate? || body.expires.at <= now || body.expires.at > now + 30 * DAY then None
    else if !interval.Whole? || !(1 <= interval.n <= 168) || !maxDaily.Whole? || !(1 <= maxDaily.n <= 5) then None
    else if TasksScope in body.scopes.value then
      if !body.delegation.Delegation? || !TemplateOk(body.template) then None
      else Some(Value(body.scopes.value, body.expires.at, interval.n, maxDaily.n, Some(body.delegation.id), Some(NormalTemplate(body.template))))
    else if body.delegation != NoDelegation || body.template != NoTemplate then None
    else Some(Value(body.scopes.value, body.expires.at, interval.n, maxDaily.n, None, None))
  }

  // ----- the stored document

  /** A policy's row; the document may be anything that has been written there. */
  datatype Document = Document(version: bool, owner: User, tenant: nat, scopes: Option<seq<Scope>>, expires: DateField,
                               interval: WholeField, maxDaily: WholeField, delegation: DelegationField, template: StoredTemplate)

  /** A stored template has exactly the columns approval writes, or is something else. */
  datatype StoredTemplate = NullTemplate | Exactly(template: Template) | SomethingElse(fields: TemplateField)

  datatype Row = Row(owner: User, tenant: nat, active: bool, document: Document)

  function FieldsOf(t: StoredTemplate): TemplateField {
    match t
    case NullTemplate => TemplateField(true, NoText, NoText, NoNumber)
    case Exactly(t) => TemplateField(true, IsText(t.title), if t.description.None? then NoText else IsText(t.description.value), Whole(t.priority))
    case SomethingElse(fields) => fields
  }

  /** The document put back into the form a body has. */
  function InputOf(d: Document): PolicyBody {
    if d.scopes.Some? && TasksScope in d.scopes.value
    then PolicyBody(true, true, d.scopes, d.expires, d.interval, d.maxDaily, d.delegation, FieldsOf(d.template))
    else PolicyBody(true, true, d.scopes, d.expires, d.interval, d.maxDaily, NoDelegation, NoTemplate)
  }

  predicate SameTemplate(checked: Option<Template>, stored: StoredTemplate) {
    if checked.None? then stored.NullTemplate? else stored == Exactly(checked.value)
  }

  /** Whether a run may go by the row's document. */
  predicate StoredPolicyAccepted(row: Row, now: Time) {
    && row.document.version && row.document.owner == row.owner && row.document.tenant == row.tenant && row.active
    && var checked := NormalizeAutonomyPolicy(InputOf(row.document), now);
       checked.Some? && SameTemplate(checked.value.template, row.document.template)
  }

  /** What approval writes. */
  function DocumentOf(v: Value, owner: User, tenant: nat): Document {
    Document(true, owner, tenant, Some(v.scopes), Date(v.expires), Whole(v.intervalHours), Whole(v.maxDailyRuns),
             if v.delegation.None? then NoDelegation else Delegation(v.delegation.value),
             if v.template.None? then NullTemplate else Exactly(v.template.value))
  }

  // ----- what the two checks agree on

  lemma {:induction false} CollapseSubset(s: Text)
    ensures forall c :: c in Collapse(s) ==> c in s || c == SPACE
    decreases |s|
  {
    if s != [] {
      CollapseSubset(s[1..]);
    }
  }

  /** A template text is a fixed point of its own normalisation, and stays within every check it passed. */
  lemma TemplateTextSettles(s: Text, max: nat)
    requires Plain(s, max)
    ensures Plain(TemplateText(s), max) && TemplateText(TemplateText(s)) == TemplateText(s)
    ensures TrimEnd(TrimStart(s)) != [] <==> TemplateText(s) != []
    ensures TemplateText(s) != [] ==> TrimEnd(TrimStart(TemplateText(s))) != []
  {
    TemplateSurvivesCleaning(s, max);
    var (start, trimmed, t) := (TrimStart(s), TrimEnd(TrimStart(s)), TemplateText(s));
    TrimmedStart(s);
    TrimmedEnd(start);
    CollapseSubset(trimmed);
    CollapseShortens(trimmed);
    CleanIsTidy(t, max);
    assert Clean(t, max) == t;
    BlankTidy(t);
    CollapseTidy(t);
    TrimSpaced(t);
    if trimmed != [] {
      CollapseShortens(trimmed);
      assert !White(trimmed[|trimmed| - 1]);
    }
  }

  /** Normalising an approved template again changes nothing. */
  lemma TemplateSettles(t: TemplateField)
    requires TemplateOk(t)
    ensures var fields := FieldsOf(Exactly(NormalTemplate(t)));
            TemplateOk(fields) && NormalTemplate(fields) == NormalTemplate(t)
  {
    TemplateTextSettles(t.title.t, MAX_TITLE);
    if t.description.IsText? {
      TemplateTextSettles(t.description.t, MAX_DESCRIPTION);
    }
    hide TemplateText;
  }

  /**
   * From its approval on, an approved policy is accepted before a run exactly
   * while it is active and has not expired.
   */
  lemma ApprovedPolicyAcceptedUntilExpiry(body: PolicyBody, approvedAt: Time, owner: User, tenant: nat, active: bool, now: Time)
    requires NormalizeAutonomyPolicy(body, approvedAt).Some? && approvedAt <= now
    ensures var v := NormalizeAutonomyPolicy(body, approvedAt).value;
            StoredPolicyAccepted(Row(owner, tenant, active, DocumentOf(v, owner, tenant)), now) <==> active && now < v.expires
  {
    if TasksScope in body.scopes.value {
      TemplateSettles(body.template);
    }
    hide TemplateOk, NormalTemplate;
  }

  /** An accepted document says what an approval could have said: only a missing interval or limit reads as its default. */
  lemma AcceptedDocumentIsApprovable(row: Row, now: Time)
    requires StoredPolicyAccepted(row, now)
    ensures var d := row.document;
            var v := NormalizeAutonomyPolicy(InputOf(d), now).value;
            && DocumentOf(v, row.owner, row.tenant).(interval := d.interval, maxDaily := d.maxDaily, delegation := d.delegation) == d
            && (v.template.Some? ==> d.delegation == Delegation(v.delegation.value))
            && (d.interval.Whole? ==> d.interval.n == v.intervalHours) && (d.maxDaily.Whole? ==> d.maxDaily.n == v.maxDailyRuns)
            && ScopesOk(Some(v.scopes)) && now < v.expires <= now + 30 * DAY
            && 1 <= v.intervalHours <= 168 && 1 <= v.maxDailyRuns <= 5
            && (TasksScope in v.scopes <==> v.template.Some?) && (v.template.Some? <==> v.delegation.Some?)
  {
    hide TemplateOk, NormalTemplate;
  }

  // ----- editing an accepted document

  /** A text of a template in its normal form: no control, single spaces only, none at either end. */
  predicate TidyText(s: Text, max: nat) {
    Tidy(s) && s != [] && !EndsInSpace(s) && |s| <= max
  }

  predicate TidyTemplate(t: Template) {
    && TidyText(t.title, MAX_TITLE) && (t.description.Some? ==> TidyText(t.description.value, MAX_DESCRIPTION))
    && 1 <= t.priority <= 3
  }

  lemma SettledExactlyWhenTidy(s: Text, max: nat)
    requires Plain(s, max)
    ensures TemplateText(s) == s && TrimEnd(TrimStart(s)) != [] <==> TidyText(s, max)
  {
    if TidyText(s, max) {
      TrimSpaced(s);
      CollapseTidy(s);
      assert !White(s[0]) && TrimStart(s) == s && TrimEnd(s) == s;
    } else if TemplateText(s) == s && TrimEnd(TrimStart(s)) != [] {
      TemplateTextSettles(s, max);
      TemplateSurvivesCleaning(s, max);
      CleanIsTidy(s, max);
      CleanTidy(s, max);
      assert false;
    }
  }

  lemma TidyIsPlain(s: Text, max: nat)
    requires TidyText(s, max)
    ensures Plain(s, max)
  {
  }

  /** A stored template passes the check exactly when its texts are in their normal form and its priority is one of three. */
  lemma TemplateStandsExactlyWhenTidy(t: Template)
    ensures TemplateOk(FieldsOf(Exactly(t))) && NormalTemplate(FieldsOf(Exactly(t))) == t <==> TidyTemplate(t)
  {
    hide TidyText, TemplateText, Plain, TrimEnd, TrimStart;
    if TidyText(t.title, MAX_TITLE) {
      TidyIsPlain(t.title, MAX_TITLE);
    }
    if Plain(t.title, MAX_TITLE) {
      SettledExactlyWhenTidy(t.title, MAX_TITLE);
    }
    if t.description.Some? {
      DescriptionStands(t.description.value);
    }
  }

  lemma DescriptionStands(s: Text)
    ensures Plain(s, MAX_DESCRIPTION) && Optional(TemplateText(s)) == Some(s) <==> TidyText(s, MAX_DESCRIPTION)
  {
    if TidyText(s, MAX_DESCRIPTION) {
      TidyIsPlain(s, MAX_DESCRIPTION);
    }
    if Plain(s, MAX_DESCRIPTION) {
      SettledExactlyWhenTidy(s, MAX_DESCRIPTION);
      TemplateTextSettles(s, MAX_DESCRIPTION);
    }
    hide TidyText, TemplateText, Plain;
  }

  predicate InRange(n: WholeField, max: nat) {
    n.NoNumber? || (n.Whole? && 1 <= n.n <= max)
  }

  /**
   * Which edits of one field leave an accepted document acceptable: another
   * template exactly in its normal form, another expiry within thirty days, an
   * interval or limit in its range or left out, and never another owner or tenant.
   */
  lemma EditedDocumentAccepted(row: Row, now: Time, d: Document)
    requires StoredPolicyAccepted(row, now) && TasksScope in row.document.scopes.value
    ensures StoredPolicyAccepted(row.(document := row.document.(template := d.template)), now)
       <==> d.template.Exactly? && TidyTemplate(d.template.template)
    ensures StoredPolicyAccepted(row.(document := row.document.(expires := d.expires)), now)
       <==> d.expires.Date? && now < d.expires.at <= now + 30 * DAY
    ensures StoredPolicyAccepted(row.(document := row.document.(interval := d.interval)), now) <==> InRange(d.interval, 168)
    ensures StoredPolicyAccepted(row.(document := row.document.(maxDaily := d.maxDaily)), now) <==> InRange(d.maxDaily, 5)
    ensures StoredPolicyAccepted(row.(document := row.document.(owner := d.owner, tenant := d.tenant)), now)
       <==> d.owner == row.owner && d.tenant == row.tenant
  {
    if d.template.Exactly? {
      TemplateStandsExactlyWhenTidy(d.template.template);
    }
    hide TemplateOk, NormalTemplate, TidyTemplate;
  }

  // ----- the terms a run goes by

  /** The terms of an approved policy, as the scheduler and the task pipeline use them. */
  function TermsOf(v: Value): Terms {
    Terms(v.expires, v.intervalHours, v.maxDailyRuns, v.template.Some?, if v.delegation.Some? then v.delegation.value else 0,
          if v.template.Some? then Payload(v.template.value.title, v.template.value.description, v.template.value.priority, None)
          else Payload([], None, 2, None))
  }

  /**
   * An approved policy is a new policy of the scheduler, and preparing a task
   * from its template leaves the template exactly as it was approved.
   */
  lemma ApprovedTermsRun(db: Db, body: PolicyBody, owner: User)
    requires NormalizeAutonomyPolicy(body, db.now).Some?
    ensures var v := NormalizeAutonomyPolicy(body, db.now).value;
            && NewPolicy(db, Policy(owner, Active, TermsOf(v), db.now, None))
            && (TermsOf(v).tasks ==> FixedTemplate(TermsOf(v).template))
  {
    if TasksScope in body.scopes.value {
      TemplateRuns(body.template);
    }
    hide TemplateOk, NormalTemplate, FixedTemplate;
  }

  lemma TemplateRuns(t: TemplateField)
    requires TemplateOk(t)
    ensures var n := NormalTemplate(t); FixedTemplate(Payload(n.title, n.description, n.priority, None))
  {
    TemplateSurvivesCleaning(t.title.t, MAX_TITLE);
    TemplateTextSettles(t.title.t, MAX_TITLE);
    if t.description.IsText? {
      TemplateSurvivesCleaning(t.description.t, MAX_DESCRIPTION);
    }
    CleanNothing(MAX_DESCRIPTION);
    hide Clean, TemplateText;
  }

  lemma CleanNothing(max: nat)
    ensures Clean([], max) == []
  {
  }
}
