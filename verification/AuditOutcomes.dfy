/** Which text is sealed for a value: what it says of the value, and in which order. */
module AuditOutcomes {
  import opened Wrappers
  import opened Utf16Text
  import opened JsonText
  import opened KeySort
  import opened AuditText

  // ----- the order of an object's own keys, by number and by unit

  function Pow10(n: nat): (p: nat)
    ensures p >= 1
  {
    if n == 0 then 1 else 10 * Pow10(n - 1)
  }

  predicate Digits(key: Text) {
    forall i :: 0 <= i < |key| ==> 0x30 <= key[i] <= 0x39
  }

  /** The number some digits stand for. */
  function Decimal(key: Text): nat
    requires Digits(key)
  {
    if key == [] then 0 else (key[0] - 0x30) * Pow10(|key| - 1) + Decimal(key[1..])
  }

  /** The canonical spelling of a number up to 2^32 - 2. */
  predicate ArrayIndex(key: Text) {
    && key != [] && Digits(key) && (key[0] == 0x30 ==> |key| == 1)
    && Decimal(key) <= 4294967294
  }

  /** Array indices first, in the order of their numbers, then all other keys, unit by unit. */
  predicate InOwnOrder(a: Text, b: Text) {
    if ArrayIndex(a) then ArrayIndex(b) ==> Decimal(a) <= Decimal(b) else !ArrayIndex(b) && NotAfter(a, b)
  }

  /** A digit against a greater one decides, whatever follows. */
  lemma Leading(c: nat, d: nat, p: nat, x: nat, y: nat)
    requires c < d && x < p
    ensures c * p + x < d * p + y
  {
    assert (c + 1) * p <= d * p by {
      assert d * p == (c + 1) * p + (d - c - 1) * p;
    }
  }

  lemma {:induction false} DecimalBound(key: Text)
    requires Digits(key)
    ensures Decimal(key) < Pow10(|key|)
  {
    if key != [] {
      DecimalBound(key[1..]);
      Leading(key[0] - 0x30, 10, Pow10(|key| - 1), Decimal(key[1..]), 0);
    }
  }

  lemma {:induction false} DecimalByUnits(a: Text, b: Text)
    requires Digits(a) && Digits(b) && |a| == |b|
    ensures Leq(a, b) <==> Decimal(a) <= Decimal(b)
  {
    if a != [] {
      var p := Pow10(|a| - 1);
      DecimalBound(a[1..]);
      DecimalBound(b[1..]);
      if a[0] < b[0] {
        Leading(a[0] - 0x30, b[0] - 0x30, p, Decimal(a[1..]), Decimal(b[1..]));
      } else if b[0] < a[0] {
        Leading(b[0] - 0x30, a[0] - 0x30, p, Decimal(b[1..]), Decimal(a[1..]));
      } else {
        DecimalByUnits(a[1..], b[1..]);
      }
    }
  }

  lemma {:induction false} Pow10Grows(m: nat, n: nat)
    requires m <= n
    ensures Pow10(m) <= Pow10(n)
  {
    if m < n {
      Pow10Grows(m, n - 1);
    }
  }

  /** Without leading zeros, more digits mean a larger number. */
  lemma DecimalByLength(a: Text, b: Text)
    requires Digits(a) && Digits(b) && |a| < |b| && b[0] != 0x30
    ensures Decimal(a) < Decimal(b)
  {
    var p := Pow10(|b| - 1);
    DecimalBound(a);
    Pow10Grows(|a|, |b| - 1);
    AtLeast(b[0] - 0x30, p);
    hide Pow10;
  }

  lemma AtLeast(c: nat, p: nat)
    requires c > 0
    ensures c * p >= p
  {
  }

  lemma LargestIndex()
    ensures Digits(MAX_INDEX) && Decimal(MAX_INDEX) == 4294967294
  {
    LastFive(MAX_INDEX);
    FirstFive(MAX_INDEX);
  }

  lemma LastFive(m: Text)
    requires Digits(m) && |m| == 10 && m[5..] == [54, 55, 50, 57, 52]
    ensures Decimal(m[5..]) == 67294
  {
    PowersOfTen();
    assert Decimal([]) == 0;
    assert m[5] == m[5..][0] && m[6] == m[5..][1] && m[7] == m[5..][2] && m[8] == m[5..][3] && m[9] == m[5..][4];
    hide Pow10, Decimal, Digits;
    assert m[10..] == [];
    DecimalStep(m, 9, 4, 1, 0);
    DecimalStep(m, 8, 9, 10, 4);
    DecimalStep(m, 7, 2, 100, 94);
    DecimalStep(m, 6, 7, 1000, 294);
    DecimalStep(m, 5, 6, 10000, 7294);
  }

  lemma FirstFive(m: Text)
    requires Digits(m) && |m| == 10 && Decimal(m[5..]) == 67294
    requires m[0] == 0x34 && m[1] == 0x32 && m[2] == 0x39 && m[3] == 0x34 && m[4] == 0x39
    ensures Decimal(m) == 4294967294
  {
    PowersOfTen();
    hide Pow10, Decimal, Digits;
    DecimalStep(m, 4, 9, 100000, 67294);
    DecimalStep(m, 3, 4, 1000000, 967294);
    DecimalStep(m, 2, 9, 10000000, 4967294);
    DecimalStep(m, 1, 2, 100000000, 94967294);
    DecimalStep(m, 0, 4, 1000000000, 294967294);
    assert m[0..] == m;
  }

  lemma PowersOfTen()
    ensures Pow10(0) == 1 && Pow10(1) == 10 && Pow10(2) == 100 && Pow10(3) == 1000 && Pow10(4) == 10000
    ensures Pow10(5) == 100000 && Pow10(6) == 1000000 && Pow10(7) == 10000000 && Pow10(8) == 100000000 && Pow10(9) == 1000000000
  {
    assert Pow10(3) == 1000;
    assert Pow10(6) == 1000000;
  }

  lemma DecimalStep(m: Text, k: nat, d: nat, p: nat, rest: nat)
    requires Digits(m) && k < |m| && Decimal(m[k + 1..]) == rest && m[k] == 0x30 + d && Pow10(|m| - k - 1) == p
    ensures Decimal(m[k..]) == d * p + rest
  {
    assert m[k..][1..] == m[k + 1..];
  }

  lemma IndexIsNumber(key: Text)
    ensures IsIndex(key) <==> ArrayIndex(key)
  {
    if forall c :: c in key ==> IsDigit(c) {
      assert Digits(key) by {
        assert forall i :: 0 <= i < |key| ==> key[i] in key;
      }
    }
    if key != [] && Digits(key) && (key[0] == 0x30 ==> |key| == 1) {
      LargestIndex();
      if |key| == |MAX_INDEX| {
        DecimalByUnits(key, MAX_INDEX);
      } else if |key| < |MAX_INDEX| {
        DecimalByLength(key, MAX_INDEX);
      } else {
        DecimalByLength(MAX_INDEX, key);
      }
    }
  }

  lemma OwnOrderExactly(a: Text, b: Text)
    ensures Before(a, b) <==> InOwnOrder(a, b)
  {
    IndexIsNumber(a);
    IndexIsNumber(b);
    LeqIsUnitOrder(a, b);
    if IsIndex(a) && IsIndex(b) {
      if |a| == |b| {
        DecimalByUnits(a, b);
      } else if |a| < |b| {
        DecimalByLength(a, b);
      } else {
        DecimalByLength(b, a);
      }
    }
  }

  // ----- what the text says

  /** Strictly in the object's own order, without "__proto__". */
  predicate WellOrdered(fields: seq<Field>) {
    && (forall i, j :: 0 <= i < j < |fields| ==> fields[i].key != fields[j].key && InOwnOrder(fields[i].key, fields[j].key))
    && (forall k :: 0 <= k < |fields| ==> fields[k].key != Letters("__proto__"))
  }

  predicate HasKeyOf(fields: seq<Field>, key: Text) {
    exists k :: 0 <= k < |fields| && fields[k].key == key
  }

  /** The printed tree says what the value says, and leaves out what JSON cannot say. */
  ghost predicate Says(v: Value, j: Json)
    decreases j
  {
    match v
    case Missing => false
    case Nothing => j == Null
    case Truth(b) => j == Bool(b)
    case Number(token) => j == Num(token)
    case NonFinite => j == Null
    case Chars(s) => j == Str(s)
    case List(items) =>
      && j.Arr? && |j.items| == |items|
      && (forall k :: 0 <= k < |items| ==> (items[k].Missing? && j.items[k] == Null) || Says(items[k], j.items[k]))
    case Record(props) => j.Obj? && SaysFields(props, j.fields)
  }

  ghost predicate SaysFields(props: seq<Keyed<Value>>, fields: seq<Field>)
    decreases fields
  {
    && WellOrdered(fields)
    && (forall k :: 0 <= k < |fields| ==> SaysField(props, fields[k]))
    && (forall p :: p in props && !p.value.Missing? && p.key != Letters("__proto__") ==> HasKeyOf(fields, p.key))
  }

  ghost predicate SaysField(props: seq<Keyed<Value>>, f: Field)
    decreases f
  {
    exists p :: p in props && p.key == f.key && Says(p.value, f.value)
  }

  lemma ProtoIsSpelled()
    ensures PROTO == Letters("__proto__")
  {
  }

  lemma {:induction false} TreeSays(v: Value, j: Json)
    requires Proper(v)
    ensures StableTree(v) == Some(j) <==> Says(v, j)
    decreases v, 3
  {
    if v.List? {
      ListSays(v, j);
    } else if v.Record? {
      RecordSays(v, j);
    }
  }

  lemma {:induction false} ListSays(v: Value, j: Json)
    requires Proper(v) && v.List?
    ensures StableTree(v) == Some(j) <==> Says(v, j)
    decreases v, 2
  {
    var trees := SerialItems(StableItems(v.items));
    assert StableTree(v) == Some(Arr(trees));
    assert |trees| == |v.items|;
    if j.Arr? && |j.items| == |v.items| {
      forall k | 0 <= k < |v.items|
        ensures trees[k] == j.items[k] <==> (v.items[k].Missing? && j.items[k] == Null) || Says(v.items[k], j.items[k])
      {
        ItemsAt(v.items, k);
        TreeExists(v.items[k]);
        TreeSays(v.items[k], j.items[k]);
      }
      assert trees == j.items <==> forall k :: 0 <= k < |trees| ==> trees[k] == j.items[k];
    }
  }

  lemma {:induction false} FieldSays(v: Value, f: Field)
    requires Proper(v) && v.Record?
    ensures AuditText.HasField(v.props, f) <==> f.key != Letters("__proto__") && SaysField(v.props, f)
    decreases v, 0
  {
    ProtoIsSpelled();
    forall p | p in v.props ensures StableTree(p.value) == Some(f.value) <==> Says(p.value, f.value) {
      TreeSays(p.value, f.value);
    }
  }

  lemma KeyTells(props: seq<Keyed<Value>>, f: Field, g: Field)
    requires Distinct(Keys(props)) && AuditText.HasField(props, f) && AuditText.HasField(props, g) && f.key == g.key
    ensures f == g
  {
    var p :| p in props && p.key == f.key && StableTree(p.value) == Some(f.value);
    var q :| q in props && q.key == g.key && StableTree(q.value) == Some(g.value);
    var i :| 0 <= i < |props| && props[i] == p;
    var j :| 0 <= j < |props| && props[j] == q;
    assert Keys(props)[i] == Keys(props)[j];
  }

  lemma WellOrderedExactly(fields: seq<Field>)
    ensures WellOrdered(fields) <==>
      && OrderedBy(Before, FieldKeys(fields)) && Distinct(FieldKeys(fields))
      && (forall k :: 0 <= k < |fields| ==> fields[k].key != PROTO)
  {
    ProtoIsSpelled();
    forall i, j | 0 <= i < j < |fields| ensures Before(fields[i].key, fields[j].key) <==> InOwnOrder(fields[i].key, fields[j].key) {
      OwnOrderExactly(fields[i].key, fields[j].key);
    }
    var keys := FieldKeys(fields);
    hide Before, InOwnOrder;
    assert forall k :: 0 <= k < |fields| ==> keys[k] == fields[k].key;
  }

  lemma {:induction false} RecordSays(v: Value, j: Json)
    requires Proper(v) && v.Record?
    ensures StableTree(v) == Some(j) <==> Says(v, j)
    decreases v, 2
  {
    var fields := RecordFields(v.props);
    assert StableTree(v) == Some(Obj(fields));
    FieldsSay(v);
    if j.Obj? && SaysFields(v.props, j.fields) {
      SaidFields(v, j.fields);
    }
  }

  lemma {:induction false} FieldsSay(v: Value)
    requires Proper(v) && v.Record?
    ensures SaysFields(v.props, RecordFields(v.props))
    decreases v, 1
  {
    var fields := RecordFields(v.props);
    RecordFieldsFit(v.props);
    hide RecordFields;
    forall k | 0 <= k < |fields| ensures SaysField(v.props, fields[k]) && fields[k].key != PROTO {
      assert AuditText.HasField(v.props, fields[k]);
      FieldSays(v, fields[k]);
    }
    WellOrderedExactly(fields);
    forall p | p in v.props && !p.value.Missing? && p.key != Letters("__proto__") ensures HasKeyOf(fields, p.key) {
      ProtoIsSpelled();
      TreeExists(p.value);
      var f := Field(p.key, StableTree(p.value).value);
      assert AuditText.HasField(v.props, f);
      assert f in fields;
    }
  }

  /** No other fields say what the object says. */
  lemma {:induction false} SaidFields(v: Value, said: seq<Field>)
    requires Proper(v) && v.Record? && SaysFields(v.props, said)
    ensures said == RecordFields(v.props)
    decreases v, 1
  {
    var fields := RecordFields(v.props);
    RecordFieldsFit(v.props);
    hide RecordFields;
    WellOrderedExactly(said);
    forall k | 0 <= k < |said| ensures said[k] in fields {
      FieldSays(v, said[k]);
    }
    forall f | f in fields ensures HasKeyOf(said, f.key) {
      var p :| p in v.props && p.key == f.key && StableTree(p.value) == Some(f.value);
      TreeExists(p.value);
      ProtoIsSpelled();
    }
    SameFields(v.props, said, fields);
  }

  lemma SameFields(props: seq<Keyed<Value>>, said: seq<Field>, fields: seq<Field>)
    requires Distinct(Keys(props)) && forall f :: f in fields ==> AuditText.HasField(props, f)
    requires OrderedBy(Before, FieldKeys(said)) && Distinct(FieldKeys(said))
    requires OrderedBy(Before, FieldKeys(fields)) && Distinct(FieldKeys(fields))
    requires forall k :: 0 <= k < |said| ==> said[k] in fields
    requires forall f :: f in fields ==> HasKeyOf(said, f.key)
    ensures said == fields
  {
    var a, b := FieldKeys(said), FieldKeys(fields);
    forall t ensures t in a <==> t in b {
      KeyInBothLists(said, fields, t);
    }
    forall x, y | Before(x, y) && Before(y, x) ensures x == y {
      BeforeIsAnOrder(x, y, x);
    }
    hide Before, Distinct, OrderedBy;
    SameKeys(a, b);
    assert |said| == |a| == |b| == |fields|;
    forall k | 0 <= k < |said| ensures said[k] == fields[k] {
      assert a[k] == b[k];
      KeyTells(props, said[k], fields[k]);
    }
  }

  lemma SameKeys(a: seq<Text>, b: seq<Text>)
    requires OrderedBy(Before, a) && Distinct(a) && OrderedBy(Before, b) && Distinct(b)
    requires forall t :: t in a <==> t in b
    ensures a == b
  {
    forall x, y | Before(x, y) && Before(y, x) ensures x == y {
      BeforeIsAnOrder(x, y, x);
    }
    OrderedUnique(Before, a, b);
  }

  lemma KeyInBothLists(said: seq<Field>, fields: seq<Field>, t: Text)
    requires forall k :: 0 <= k < |said| ==> said[k] in fields
    requires forall f :: f in fields ==> HasKeyOf(said, f.key)
    ensures t in FieldKeys(said) <==> t in FieldKeys(fields)
  {
    if t in FieldKeys(said) {
      var k :| 0 <= k < |said| && said[k].key == t;
      var i :| 0 <= i < |fields| && fields[i] == said[k];
      assert FieldKeys(fields)[i] == t;
    }
    if t in FieldKeys(fields) {
      var i :| 0 <= i < |fields| && FieldKeys(fields)[i] == t;
      assert fields[i] in fields;
      var k :| 0 <= k < |said| && said[k].key == t;
      assert FieldKeys(said)[k] == t;
    }
  }

  /** The text of a value is the print of the one tree that says what it says, with its keys in order. */
  lemma TextExactly(v: Value, t: Text)
    requires Proper(v)
    ensures StableAuditJson(v) == Some(t) <==> exists j :: Says(v, j) && t == Print(j)
  {
    if StableAuditJson(v) == Some(t) {
      TreeSays(v, StableTree(v).value);
    }
    if j :| Says(v, j) && t == Print(j) {
      TreeSays(v, j);
    }
  }

  // ----- the text under the seal

  function OrNull(t: Option<Text>): Json {
    if t.None? then Null else Str(t.value)
  }

  /** The fields of a sealed event whose data prints as `d`. */
  function SealFields(e: Event, d: Json): (fields: seq<Field>)
    ensures |fields| == 10
  {
    [Field(Letters("actorUserId"), OrNull(e.actor)), Field(Letters("entityId"), OrNull(e.entity)),
     Field(Letters("entityType"), Str(e.entityType)), Field(Letters("eventData"), d), Field(Letters("eventType"), Str(e.eventType)),
     Field(Letters("integrityVersion"), Num([0x31])), Field(Letters("occurredAt"), Str(e.occurredAt)),
     Field(Letters("prevHash"), Str(e.prevHash)), Field(Letters("seq"), Num(e.seqToken)), Field(Letters("tenantId"), Str(e.tenant))]
  }

  lemma LettersPrecede(s: string, t: string, k: nat)
    requires k < |s| && k < |t| && s[..k] == t[..k] && s[k] < t[k]
    requires forall i :: 0 <= i <= k ==> s[i] as int < 0x1_0000 && t[i] as int < 0x1_0000
    ensures Leq(Letters(s), Letters(t)) && Letters(s) != Letters(t)
  {
    var a, b := Letters(s), Letters(t);
    forall i | 0 <= i < k ensures a[i] == b[i] {
      assert s[i] == s[..k][i] == t[..k][i];
    }
    assert NotAfterAt(a, b, k) && a[k] != b[k];
    LeqIsUnitOrder(a, b);
  }

  predicate Rises(keys: seq<Text>, i: nat)
    requires i + 1 < |keys|
  {
    Leq(keys[i], keys[i + 1]) && keys[i] != keys[i + 1]
  }

  lemma {:induction false} RisesFurther(keys: seq<Text>, i: nat, j: nat)
    requires i < j < |keys| && forall k :: i <= k < |keys| - 1 ==> Rises(keys, k)
    ensures Leq(keys[i], keys[j]) && keys[i] != keys[j]
  {
    assert Rises(keys, j - 1);
    if i < j - 1 {
      RisesFurther(keys, i, j - 1);
      LeqTransitive(keys[i], keys[j - 1], keys[j]);
      if keys[i] == keys[j] {
        LeqAntisymmetric(keys[i], keys[j - 1]);
      }
    }
  }

  function SealNames(): (names: seq<Text>)
    ensures |names| == 10
  {
    [Letters("actorUserId"), Letters("entityId"), Letters("entityType"), Letters("eventData"), Letters("eventType"),
     Letters("integrityVersion"), Letters("occurredAt"), Letters("prevHash"), Letters("seq"), Letters("tenantId")]
  }

  /** Each key differs from the next at a known place. */
  lemma FirstNamesRise()
    ensures forall i :: 0 <= i < 4 ==> Rises(SealNames(), i)
  {
    hide Leq, Letters;
    LettersPrecede("actorUserId", "entityId", 0);
    LettersPrecede("entityId", "entityType", 6);
    LettersPrecede("entityType", "eventData", 1);
    LettersPrecede("eventData", "eventType", 5);
  }

  lemma LastNamesRise()
    ensures forall i :: 4 <= i < 9 ==> Rises(SealNames(), i)
  {
    hide Leq, Letters;
    LettersPrecede("eventType", "integrityVersion", 0);
    LettersPrecede("integrityVersion", "occurredAt", 0);
    LettersPrecede("occurredAt", "prevHash", 0);
    LettersPrecede("prevHash", "seq", 0);
    LettersPrecede("seq", "tenantId", 0);
  }

  lemma NamesAreLetters()
    ensures forall i :: 0 <= i < 10 ==> SealNames()[i] != [] && SealNames()[i][0] >= 0x60
  {
  }

  lemma NotIndex(key: Text)
    requires key != [] && key[0] >= 0x60
    ensures !ArrayIndex(key) && key != Letters("__proto__")
  {
    assert Letters("__proto__")[0] == 0x5f;
  }

  lemma SealFieldsInOrder(e: Event, d: Json)
    ensures WellOrdered(SealFields(e, d))
  {
    var fields, names := SealFields(e, d), SealNames();
    assert forall i :: 0 <= i < 10 ==> fields[i].key == names[i];
    FirstNamesRise();
    LastNamesRise();
    NamesAreLetters();
    hide Leq, SealFields, SealNames, Rises, ArrayIndex, Letters, NotAfter;
    forall i, j | 0 <= i < j < 10 ensures names[i] != names[j] && InOwnOrder(names[i], names[j]) {
      NotIndex(names[i]);
      NotIndex(names[j]);
      RisesFurther(names, i, j);
      LeqIsUnitOrder(names[i], names[j]);
    }
    forall k | 0 <= k < 10 ensures fields[k].key != Letters("__proto__") {
      NotIndex(names[k]);
    }
  }

  /** Where each printed field stands in the hashed object. */
  function Source(i: nat): (k: nat)
    requires i < 10
    ensures k < 10
  {
    [2, 5, 4, 6, 3, 9, 7, 8, 1, 0][i]
  }

  lemma SealKeyMoves(e: Event, d: Json, i: nat)
    requires i < 10
    ensures SealKeys()[Source(i)] == SealFields(e, d)[i].key
  {
    hide Letters;
    if i < 5 {
      assert i == 0 || i == 1 || i == 2 || i == 3 || i == 4;
    } else {
      assert i == 5 || i == 6 || i == 7 || i == 8 || i == 9;
    }
  }

  lemma SealValueSays(e: Event, stored: Value, d: Json, i: nat)
    requires i < 10 && Says(stored, d)
    ensures Says(SealValues(e, stored)[Source(i)], SealFields(e, d)[i].value)
  {
    if i < 5 {
      FirstValueSays(e, stored, d, i);
    } else {
      LastValueSays(e, stored, d, i);
    }
    hide SealValues, SealFields, Source, Says;
  }

  lemma FirstValueSays(e: Event, stored: Value, d: Json, i: nat)
    requires i < 5 && Says(stored, d)
    ensures Says(SealValues(e, stored)[Source(i)], SealFields(e, d)[i].value)
  {
    hide Letters;
    assert i == 0 || i == 1 || i == 2 || i == 3 || i == 4;
  }

  lemma LastValueSays(e: Event, stored: Value, d: Json, i: nat)
    requires 5 <= i < 10
    ensures Says(SealValues(e, stored)[Source(i)], SealFields(e, d)[i].value)
  {
    hide Letters;
    assert i == 5 || i == 6 || i == 7 || i == 8 || i == 9;
  }

  lemma SealSays(e: Event, stored: Value, d: Json)
    requires Says(stored, d)
    ensures Says(HashInput(e, stored), Obj(SealFields(e, d)))
  {
    var fields, props := SealFields(e, d), HashInput(e, stored).props;
    SealFieldsInOrder(e, d);
    SealFieldsAreSaid(e, stored, d);
    hide SealFields, HashInput, WellOrdered, SaysField, HasKeyOf, Letters;
  }

  lemma SealFieldsAreSaid(e: Event, stored: Value, d: Json)
    requires Says(stored, d)
    ensures forall i :: 0 <= i < 10 ==> SaysField(HashInput(e, stored).props, SealFields(e, d)[i])
    ensures forall p :: p in HashInput(e, stored).props ==> HasKeyOf(SealFields(e, d), p.key)
  {
    var fields, props := SealFields(e, d), HashInput(e, stored).props;
    assert forall k :: 0 <= k < 10 ==> props[k] == Keyed(SealKeys()[k], SealValues(e, stored)[k]);
    hide SealFields, HashInput, SealKeys, SealValues, Letters, Says, Source;
    forall i | 0 <= i < 10 ensures SaysField(props, fields[i]) {
      SealKeyMoves(e, d, i);
      SealValueSays(e, stored, d, i);
      assert props[Source(i)] in props;
    }
    forall p | p in props ensures HasKeyOf(fields, p.key) {
      var k: nat :| k < 10 && props[k] == p;
      var i := Target(k);
      SealKeyMoves(e, d, i);
    }
  }

  function Target(k: nat): (i: nat)
    requires k < 10
    ensures i < 10 && Source(i) == k
  {
    [9, 8, 0, 4, 2, 1, 3, 6, 7, 5][k]
  }

  /** The text under the seal: ten fields in this order, with the event's data as it was stored. */
  lemma SealTextExactly(e: Event, d: Json)
    requires Proper(e.data) && Says(e.data, d)
    ensures StableAuditJson(e.data) == Some(Print(d))
    ensures SealText(e) == Some(Print(Obj(SealFields(e, d))))
  {
    TreeSays(e.data, d);
    TreeExists(e.data);
    StoredMeaning(e);
    var stored := FromJson(Parse(StableAuditJson(e.data).value).value.value);
    TreesFollowMeaning(stored, e.data);
    TreeSays(stored, d);
    SealSays(e, stored, d);
    SealProper(e, stored);
    TreeSays(HashInput(e, stored), Obj(SealFields(e, d)));
  }
}
