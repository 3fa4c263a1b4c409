/** The canonical text of a task intent, whose digest an owner approves. */
module IntentText {
  import opened Wrappers
  import opened Utf16Text
  import opened TextClean
  import opened JsonText
  import opened TaskTables
  import opened TaskPipeline

  /** Prints a time as an ISO string. */
  type Iso = Time -> Text

  /** What an intent is linked to besides its payload. */
  datatype Links = Links(run: Option<Text>, proposal: Option<Text>)

  const ZERO: NumberToken := [0x30]

  /** A priority has one digit. */
  function Digit(n: nat): NumberToken {
    [0x30 + n % 10]
  }

  function OrNull(t: Option<Text>): Json {
    if t.None? then Null else Str(t.value)
  }

  function Metadata(p: Payload, iso: Iso): Json {
    Obj([Field(Letters("title"), Str(p.title)), Field(Letters("description"), OrNull(p.description)),
         Field(Letters("priority"), Num(Digit(p.priority))),
         Field(Letters("dueAt"), if p.dueAt.None? then Null else Str(iso(p.dueAt.value)))])
  }

  function IntentTree(p: Payload, links: Links, iso: Iso): (tree: Json)
    ensures tree.Obj?
  {
    Obj([Field(Letters("agentKey"), Str(Letters("thebe"))), Field(Letters("actionKey"), Str(Letters("task.create"))),
         Field(Letters("amountMinor"), Num(ZERO)), Field(Letters("humanConfirmed"), Bool(false)),
         Field(Letters("runId"), OrNull(links.run)), Field(Letters("proposalId"), OrNull(links.proposal)),
         Field(Letters("metadata"), Metadata(p, iso))])
  }

  function CanonicalIntentPayload(p: Payload, links: Links, iso: Iso): Text {
    Print(IntentTree(p, links, iso))
  }

  ghost predicate Faithful(iso: Iso) {
    forall s, t :: iso(s) == iso(t) ==> s == t
  }

  lemma TreeTells(p: Payload, links: Links, p': Payload, links': Links, iso: Iso)
    requires Faithful(iso) && Normal(p) && Normal(p') && IntentTree(p, links, iso) == IntentTree(p', links', iso)
    ensures p == p' && links == links'
  {
    hide Letters, NormalText;
    var (a, b) := (IntentTree(p, links, iso).fields, IntentTree(p', links', iso).fields);
    assert a[4] == b[4] && a[5] == b[5] && a[6] == b[6];
    var (c, d) := (a[6].value.fields, b[6].value.fields);
    assert c[0] == d[0] && c[1] == d[1] && c[2] == d[2] && c[3] == d[3];
    assert c[2].value.token[0] == d[2].value.token[0];
  }

  lemma IntentIsDense(p: Payload, links: Links, iso: Iso)
    ensures Dense(IntentTree(p, links, iso))
  {
    hide Letters;
    assert Dense(Metadata(p, iso));
  }

  /** Two prepared tasks have the same canonical text only if they have the same payload and the same links. */
  lemma CanonicalIntentIsUnambiguous(p: Payload, links: Links, p': Payload, links': Links, iso: Iso)
    requires Faithful(iso) && Normal(p) && Normal(p')
    requires CanonicalIntentPayload(p, links, iso) == CanonicalIntentPayload(p', links', iso)
    ensures p == p' && links == links'
  {
    IntentIsDense(p, links, iso);
    IntentIsDense(p', links', iso);
    PrintInjective(IntentTree(p, links, iso), IntentTree(p', links', iso));
    TreeTells(p, links, p', links', iso);
  }

  /** Its bytes are well-formed, so the digest is taken of exactly this text. */
  lemma CanonicalIntentWellFormed(p: Payload, links: Links, iso: Iso)
    ensures WellFormed(CanonicalIntentPayload(p, links, iso))
  {
    PrintWellFormed(IntentTree(p, links, iso));
  }

  ghost predicate CollisionFree(hash: Text -> Hash) {
    forall s, t :: hash(s) == hash(t) ==> s == t
  }

  /** The digest of a payload with given links, as the pipeline uses it. */
  function DigestWith(hash: Text -> Hash, links: Links, iso: Iso): Digest {
    (p: Payload) => hash(CanonicalIntentPayload(p, links, iso))
  }

  /** With a hash that never collides, the digest an owner approved stands for one payload. */
  lemma ApprovedDigestFixesPayload(hash: Text -> Hash, links: Links, iso: Iso, q: Request, grants: map<Id, Grant>, p: Payload)
    requires CollisionFree(hash) && Faithful(iso)
    requires RequestOk(DigestWith(hash, links, iso), q, grants) && q.status == Executed
    requires Normal(p) && q.approvedHash == Some(DigestWith(hash, links, iso)(p))
    ensures p == q.payload
  {
    hide Normal;
    CanonicalIntentIsUnambiguous(p, links, q.payload, links, iso);
  }

  // ----- the text, spelled out

  /** Members in order: the name between quotes, a colon and the text of the value. */
  function MembersText(names: seq<string>, values: seq<Text>): Text
    requires |names| == |values|
  {
    if names == [] then []
    else
      Letters("\"") + Letters(names[0]) + Letters("\":") + values[0]
      + (if |names| == 1 then [] else Letters(",") + MembersText(names[1..], values[1..]))
  }

  function ObjectText(names: seq<string>, values: seq<Text>): Text
    requires |names| == |values|
  {
    Letters("{") + MembersText(names, values) + Letters("}")
  }

  /** Letters, digits and signs that a quoted string holds as they are. */
  predicate PlainName(s: string) {
    forall i :: 0 <= i < |s| ==> 0x20 <= s[i] as int < 0x7f && s[i] != '\"' && s[i] != '\\'
  }

  lemma {:induction false} PlainBody(s: string)
    requires PlainName(s)
    ensures QuoteBody(Letters(s)) == Letters(s)
  {
    if s != "" {
      PlainBody(s[1..]);
      LettersCons(s);
      var t := Letters(s);
      assert !IsHigh(t[0]) && EscapeUnit(t[0]) == [t[0]] by {
        assert t[0] == s[0] as int;
      }
      hide Letters, EscapeUnit;
    }
  }

  lemma LettersCons(s: string)
    requires s != ""
    ensures Letters(s) != [] && Letters(s)[1..] == Letters(s[1..]) && Letters(s) == [Letters(s)[0]] + Letters(s[1..])
  {
    assert Letters(s)[1..] == Letters(s[1..]);
  }

  lemma PlainQuote(s: string)
    requires PlainName(s)
    ensures Quote(Letters(s)) == Letters("\"") + Letters(s) + Letters("\"")
  {
    PlainBody(s);
    assert Letters("\"") == [QUOTE];
  }

  lemma MemberText(name: string, value: Text)
    requires PlainName(name)
    ensures Quote(Letters(name)) + ([COLON] + value) == Letters("\"") + Letters(name) + Letters("\":") + value
  {
    PlainQuote(name);
    assert Letters("\":") == [QUOTE, COLON] && Letters("\"") == [QUOTE];
    hide Letters, Quote;
    assert [QUOTE] + Letters(name) + [QUOTE] + ([COLON] + value) == [QUOTE] + Letters(name) + [QUOTE, COLON] + value;
  }

  lemma {:induction false} FieldsText(names: seq<string>, fields: seq<Field>)
    requires |names| == |fields| && forall i :: 0 <= i < |names| ==> PlainName(names[i]) && fields[i].key == Letters(names[i])
    ensures PrintFields(fields) == MembersText(names, ValueTexts(fields))
  {
    if names != [] {
      hide Quote, Letters, Print, PlainName;
      MemberText(names[0], Print(fields[0].value));
      if |names| > 1 {
        FieldsText(names[1..], fields[1..]);
        assert ValueTexts(fields)[1..] == ValueTexts(fields[1..]);
        CommaText(Quote(fields[0].key) + ([COLON] + Print(fields[0].value)), PrintFields(fields[1..]));
      }
    }
  }

  lemma CommaText(head: Text, rest: Text)
    ensures head + [COMMA] + rest == head + (Letters(",") + rest)
  {
    assert Letters(",") == [COMMA];
  }

  function ValueTexts(fields: seq<Field>): (texts: seq<Text>)
    ensures |texts| == |fields|
  {
    seq(|fields|, i requires 0 <= i < |fields| => Print(fields[i].value))
  }

  lemma ObjectIsText(names: seq<string>, fields: seq<Field>)
    requires |names| == |fields| && forall i :: 0 <= i < |names| ==> PlainName(names[i]) && fields[i].key == Letters(names[i])
    ensures Print(Obj(fields)) == ObjectText(names, ValueTexts(fields))
  {
    FieldsText(names, fields);
    assert Letters("{") == [LBRACE] && Letters("}") == [RBRACE];
  }

  /** The text of an optional string: quoted, or null. */
  function NullableText(t: Option<Text>): Text {
    if t.None? then Letters("null") else Quote(t.value)
  }

  lemma NullableIsText(t: Option<Text>)
    ensures Print(OrNull(t)) == NullableText(t)
  {
    assert NULL == Letters("null");
  }

  function MetadataNames(): (names: seq<string>)
    ensures |names| == 4
  {
    ["title", "description", "priority", "dueAt"]
  }

  function IntentNames(): (names: seq<string>)
    ensures |names| == 7
  {
    ["agentKey", "actionKey", "amountMinor", "humanConfirmed", "runId", "proposalId", "metadata"]
  }

  lemma MetadataNamesArePlain()
    ensures forall i :: 0 <= i < 4 ==> PlainName(MetadataNames()[i])
  {
    assert PlainName("title") && PlainName("description");
    assert PlainName("priority") && PlainName("dueAt");
    hide PlainName;
  }

  lemma IntentNamesArePlain()
    ensures forall i :: 0 <= i < 7 ==> PlainName(IntentNames()[i])
  {
    assert PlainName("agentKey") && PlainName("actionKey");
    assert PlainName("amountMinor") && PlainName("humanConfirmed");
    assert PlainName("runId") && PlainName("proposalId") && PlainName("metadata");
    hide PlainName;
  }

  lemma MetadataFields(p: Payload, iso: Iso)
    ensures var fields := Metadata(p, iso).fields;
            && |fields| == 4 && (forall i :: 0 <= i < 4 ==> fields[i].key == Letters(MetadataNames()[i]))
            && fields[0].value == Str(p.title) && fields[1].value == OrNull(p.description)
            && fields[2].value == Num(Digit(p.priority))
            && fields[3].value == OrNull(if p.dueAt.None? then None else Some(iso(p.dueAt.value)))
  {
    hide Letters;
  }

  lemma IntentFields(p: Payload, links: Links, iso: Iso)
    ensures var fields := IntentTree(p, links, iso).fields;
            && |fields| == 7 && (forall i :: 0 <= i < 7 ==> fields[i].key == Letters(IntentNames()[i]))
            && fields[0].value == Str(Letters("thebe")) && fields[1].value == Str(Letters("task.create"))
            && fields[2].value == Num(ZERO) && fields[3].value == Bool(false)
            && fields[4].value == OrNull(links.run) && fields[5].value == OrNull(links.proposal)
            && fields[6].value == Metadata(p, iso)
  {
    hide Letters, Metadata;
  }

  lemma ScalarTexts(t: Text, n: NumberToken)
    ensures Print(Str(t)) == Quote(t) && Print(Num(n)) == n
  {
  }

  lemma WordTexts()
    ensures Print(Bool(false)) == Letters("false") && Print(Num(ZERO)) == Letters("0")
  {
    assert Letters("false") == FALSE && Letters("0") == ZERO;
  }

  lemma MetadataIsSpelled(p: Payload, iso: Iso)
    requires 1 <= p.priority <= 3
    ensures Print(Metadata(p, iso)) == ObjectText(
              MetadataNames(),
              [Quote(p.title), NullableText(p.description), [0x30 + p.priority],
               NullableText(if p.dueAt.None? then None else Some(iso(p.dueAt.value)))])
  {
    var due := if p.dueAt.None? then None else Some(iso(p.dueAt.value));
    var fields := Metadata(p, iso).fields;
    MetadataFields(p, iso);
    MetadataNamesArePlain();
    assert Digit(p.priority) == [0x30 + p.priority];
    assert Metadata(p, iso) == Obj(fields);
    hide Letters, Quote, NullableText, MetadataNames, PlainName, Metadata, OrNull, Print, ObjectText, Digit;
    ScalarTexts(p.title, Digit(p.priority));
    NullableIsText(p.description);
    NullableIsText(due);
    ObjectIsText(MetadataNames(), fields);
    assert ValueTexts(fields) == [Quote(p.title), NullableText(p.description), [0x30 + p.priority], NullableText(due)];
  }

  /** The texts of the seven values. */
  function IntentTexts(p: Payload, links: Links, iso: Iso): (texts: seq<Text>)
    ensures |texts| == 7
  {
    [Quote(Letters("thebe")), Quote(Letters("task.create")), Letters("0"), Letters("false"),
     NullableText(links.run), NullableText(links.proposal), Print(Metadata(p, iso))]
  }

  lemma IntentTextsAre(p: Payload, links: Links, iso: Iso)
    ensures var told := IntentTexts(p, links, iso);
            && told[0] == Quote(Letters("thebe")) && told[1] == Quote(Letters("task.create")) && told[2] == Letters("0")
            && told[3] == Letters("false") && told[4] == NullableText(links.run) && told[5] == NullableText(links.proposal)
            && told[6] == Print(Metadata(p, iso))
  {
    hide Metadata, NullableText, Quote, Print, Letters;
  }

  lemma ValueTextAt(fields: seq<Field>, i: nat)
    requires i < |fields|
    ensures ValueTexts(fields)[i] == Print(fields[i].value)
  {
    hide Print;
  }

  lemma IntentValues(p: Payload, links: Links, iso: Iso)
    ensures ValueTexts(IntentTree(p, links, iso).fields) == IntentTexts(p, links, iso)
  {
    hide IntentTree, Metadata, OrNull, NullableText, Quote, Print, Letters, ValueTexts, IntentTexts, IntentNames;
    var fields := IntentTree(p, links, iso).fields;
    IntentFields(p, links, iso);
    IntentTextsAre(p, links, iso);
    ScalarTexts(Letters("thebe"), ZERO);
    ScalarTexts(Letters("task.create"), ZERO);
    WordTexts();
    NullableIsText(links.run);
    NullableIsText(links.proposal);
    forall i | 0 <= i < 7 ensures ValueTexts(fields)[i] == IntentTexts(p, links, iso)[i] {
      ValueTextAt(fields, i);
    }
  }

  /** The text whose digest is approved, name by name and word for word. */
  lemma IntentIsSpelled(p: Payload, links: Links, iso: Iso)
    ensures CanonicalIntentPayload(p, links, iso) == ObjectText(IntentNames(), IntentTexts(p, links, iso))
  {
    hide Letters, Quote, NullableText, IntentNames, PlainName, Metadata, OrNull, Print, ObjectText, ValueTexts, IntentTexts;
    var fields := IntentTree(p, links, iso).fields;
    IntentFields(p, links, iso);
    IntentNamesArePlain();
    IntentValues(p, links, iso);
    ObjectIsText(IntentNames(), fields);
  }
}
