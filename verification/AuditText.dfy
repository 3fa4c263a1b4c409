/** The canonical text of an audit event, and why hashing it again from what was stored gives the same hash. */
module AuditText {
  import opened Wrappers
  import opened Utf16Text
  import opened JsonText
  import opened KeySort

  /** `Missing` is whatever JSON.stringify leaves out: undefined, functions, symbols. */
  datatype Value =
    | Missing
    | Nothing
    | Truth(b: bool)
    | Number(token: NumberToken)
    | NonFinite
    | Chars(s: Text)
    | List(items: seq<Value>)
    | Record(props: seq<Keyed<Value>>)

  /** "__proto__": assigning to it sets the prototype and makes no property. */
  const PROTO: Text := [0x5f, 0x5f, 0x70, 0x72, 0x6f, 0x74, 0x6f, 0x5f, 0x5f]

  /** "4294967294", the largest array index. */
  const MAX_INDEX: Text := [0x34, 0x32, 0x39, 0x34, 0x39, 0x36, 0x37, 0x32, 0x39, 0x34]

  predicate IsDigit(c: CodeUnit) { 0x30 <= c <= 0x39 }

  predicate IsIndex(key: Text) {
    && key != [] && (forall c :: c in key ==> IsDigit(c)) && (key[0] == 0x30 ==> |key| == 1)
    && (|key| < |MAX_INDEX| || (|key| == |MAX_INDEX| && Leq(key, MAX_INDEX)))
  }

  /** The order of numbers written without leading zeros. */
  predicate Smaller(a: Text, b: Text) {
    |a| < |b| || (|a| == |b| && Leq(a, b))
  }

  // ----- a fresh object, filled key by key

  function PutIndex<V>(out: seq<Keyed<V>>, p: Keyed<V>): seq<Keyed<V>> {
    if out == [] || !IsIndex(out[0].key) || Smaller(p.key, out[0].key) then [p] + out
    else [out[0]] + PutIndex(out[1..], p)
  }

  /** `out[key] = value`: index-like keys come first, by number, the others in the order they were added. */
  function Put<V>(out: seq<Keyed<V>>, p: Keyed<V>): seq<Keyed<V>> {
    if p.key == PROTO then out else if IsIndex(p.key) then PutIndex(out, p) else out + [p]
  }

  function Fill<V>(ps: seq<Keyed<V>>): seq<Keyed<V>> {
    if ps == [] then [] else Put(Fill(ps[..|ps| - 1]), ps[|ps| - 1])
  }

  // ----- the text

  /** A copy whose keys were added in sorted order, at every level. */
  function Stable(v: Value): Value {
    match v
    case List(items) => List(StableItems(items))
    case Record(props) => Record(Fill(SortByKey(StableProps(props))))
    case _ => v
  }

  function StableItems(items: seq<Value>): (r: seq<Value>)
    ensures |r| == |items|
  {
    if items == [] then [] else [Stable(items[0])] + StableItems(items[1..])
  }

  function StableProps(props: seq<Keyed<Value>>): (r: seq<Keyed<Value>>)
    ensures |r| == |props|
  {
    if props == [] then [] else [Keyed(props[0].key, Stable(props[0].value))] + StableProps(props[1..])
  }

  /** JSON.stringify: None when there is nothing to print. */
  function Serial(v: Value): Option<Json> {
    match v
    case Missing => None
    case Nothing => Some(Null)
    case Truth(b) => Some(Bool(b))
    case Number(token) => Some(Num(token))
    case NonFinite => Some(Null)
    case Chars(s) => Some(Str(s))
    case List(items) => Some(Arr(SerialItems(items)))
    case Record(props) => Some(Obj(SerialProps(props)))
  }

  function SerialItems(items: seq<Value>): (r: seq<Json>)
    ensures |r| == |items|
  {
    if items == [] then []
    else [if Serial(items[0]).Some? then Serial(items[0]).value else Null] + SerialItems(items[1..])
  }

  function SerialProps(props: seq<Keyed<Value>>): seq<Field> {
    if props == [] then []
    else
      (if Serial(props[0].value).Some? then [Field(props[0].key, Serial(props[0].value).value)] else [])
      + SerialProps(props[1..])
  }

  function StableTree(v: Value): Option<Json> { Serial(Stable(v)) }

  function StableAuditJson(v: Value): Option<Text> {
    match StableTree(v)
    case None => None
    case Some(j) => Some(Print(j))
  }

  /** The copy as the code makes it: a new object, one assignment for each sorted key. */
  method StableJsonValue(v: Value) returns (out: Value)
    ensures out == Stable(v)
    decreases v, 1
  {
    match v
    case List(items) =>
      var copies := StableList(v);
      return List(copies);
    case Record(props) =>
      var copy := StableRecord(v);
      return Record(copy);
    case _ => return v;
  }

  method StableList(v: Value) returns (copies: seq<Value>)
    requires v.List?
    ensures copies == StableItems(v.items)
    decreases v, 0
  {
    copies := [];
    for k := 0 to |v.items|
      invariant StableItems(v.items) == copies + StableItems(v.items[k..])
    {
      var copy := StableJsonValue(v.items[k]);
      assert v.items[k..][1..] == v.items[k + 1..];
      copies := copies + [copy];
    }
  }

  method StableRecord(v: Value) returns (out: seq<Keyed<Value>>)
    requires v.Record?
    ensures out == Fill(SortByKey(StableProps(v.props)))
    decreases v, 0
  {
    var sorted := SortByKey(v.props);
    ghost var stable := StableProps(sorted);
    out := [];
    for k := 0 to |sorted|
      invariant out == Fill(stable[..k])
    {
      SortedIsPermutation(v.props);
      assert sorted[k] in v.props;
      hide SortByKey;
      var value := StableJsonValue(sorted[k].value);
      StablePropsAt(sorted, k);
      FillStep(stable, k);
      out := Put(out, Keyed(sorted[k].key, value));
    }
    SortedStable(v.props);
    assert stable[..|sorted|] == stable;
  }

  lemma FillStep<V>(ps: seq<Keyed<V>>, k: nat)
    requires k < |ps|
    ensures Fill(ps[..k + 1]) == Put(Fill(ps[..k]), ps[k])
  {
    assert ps[..k + 1][..k] == ps[..k];
  }

  lemma {:induction false} StablePropsAt(props: seq<Keyed<Value>>, k: nat)
    requires k < |props|
    ensures StableProps(props)[k] == Keyed(props[k].key, Stable(props[k].value))
  {
    if k > 0 {
      StablePropsAt(props[1..], k - 1);
    }
  }

  /** Sorting looks at keys only. */
  lemma {:induction false} SortedStable(props: seq<Keyed<Value>>)
    ensures StableProps(SortByKey(props)) == SortByKey(StableProps(props))
  {
    if props != [] {
      SortedStable(props[1..]);
      InsertStable(props[0], SortByKey(props[1..]));
      assert StableProps(props)[0] == Keyed(props[0].key, Stable(props[0].value));
      assert StableProps(props)[1..] == StableProps(props[1..]);
    }
  }

  lemma {:induction false} InsertStable(p: Keyed<Value>, props: seq<Keyed<Value>>)
    ensures StableProps(Insert(p, props)) == Insert(Keyed(p.key, Stable(p.value)), StableProps(props))
  {
    if props == [] || Leq(p.key, props[0].key) {
      assert ([p] + props)[1..] == props;
    } else {
      InsertStable(p, props[1..]);
      assert ([props[0]] + Insert(p, props[1..]))[1..] == Insert(p, props[1..]);
      assert StableProps(props)[1..] == StableProps(props[1..]);
    }
  }

  // ----- the order of an object's own keys

  predicate Before(a: Text, b: Text) {
    if IsIndex(a) then (IsIndex(b) ==> Smaller(a, b)) else !IsIndex(b) && Leq(a, b)
  }

  lemma BeforeIsAnOrder(a: Text, b: Text, c: Text)
    ensures Before(a, b) || Before(b, a)
    ensures Before(a, b) && Before(b, a) ==> a == b
    ensures Before(a, b) && Before(b, c) ==> Before(a, c)
  {
    hide IsIndex;
    LeqTotal(a, b);
    if Leq(a, b) && Leq(b, a) {
      LeqAntisymmetric(a, b);
    }
    if Leq(a, b) && Leq(b, c) {
      LeqTransitive(a, b, c);
    }
  }

  lemma OrderedByCons(k: Text, keys: seq<Text>)
    requires OrderedBy(Before, keys) && forall q :: q in keys ==> Before(k, q)
    ensures OrderedBy(Before, [k] + keys)
  {
    var all := [k] + keys;
    assert forall j :: 0 < j < |all| ==> all[j] == keys[j - 1];
  }

  lemma OrderedByRest(keys: seq<Text>)
    requires OrderedBy(Before, keys) && keys != []
    ensures OrderedBy(Before, keys[1..]) && forall q :: q in keys[1..] ==> Before(keys[0], q)
  {
  }

  lemma DistinctCons(k: Text, keys: seq<Text>)
    requires Distinct(keys) && k !in keys
    ensures Distinct([k] + keys)
  {
    var all := [k] + keys;
    assert forall j :: 0 < j < |all| ==> all[j] == keys[j - 1];
  }

  lemma KeysOfCons<V>(p: Keyed<V>, ps: seq<Keyed<V>>)
    ensures Keys([p] + ps) == [p.key] + Keys(ps)
  {
  }

  lemma {:induction false} PutIndexFits<V>(out: seq<Keyed<V>>, p: Keyed<V>)
    requires OrderedBy(Before, Keys(out)) && Distinct(Keys(out)) && IsIndex(p.key) && p.key !in Keys(out)
    ensures var r := PutIndex(out, p);
            && OrderedBy(Before, Keys(r)) && Distinct(Keys(r))
            && (forall k :: k in Keys(r) <==> k == p.key || k in Keys(out))
  {
    hide IsIndex, Smaller;
    KeysOfCons(p, out);
    if out == [] || !IsIndex(out[0].key) || Smaller(p.key, out[0].key) {
      forall k | k in Keys(out) ensures Before(p.key, k) {
        assert Before(p.key, out[0].key);
        var i :| 0 <= i < |out| && Keys(out)[i] == k;
        if i > 0 {
          BeforeIsAnOrder(p.key, Keys(out)[0], k);
        }
      }
      OrderedByCons(p.key, Keys(out));
      DistinctCons(p.key, Keys(out));
    } else {
      assert Keys(out) == [out[0].key] + Keys(out[1..]) && Keys(out)[1..] == Keys(out[1..]);
      OrderedByRest(Keys(out));
      DistinctTail(Keys(out));
      var rest := PutIndex(out[1..], p);
      PutIndexFits(out[1..], p);
      KeysOfCons(out[0], rest);
      BeforeIsAnOrder(out[0].key, p.key, p.key);
      forall k | k in Keys(rest) ensures Before(out[0].key, k) {
      }
      OrderedByCons(out[0].key, Keys(rest));
      DistinctCons(out[0].key, Keys(rest));
    }
  }

  lemma {:induction false} PutMembers<V>(out: seq<Keyed<V>>, p: Keyed<V>)
    ensures forall q :: q in PutIndex(out, p) <==> q == p || q in out
    ensures forall q :: q in Put(out, p) <==> (q == p && p.key != PROTO) || q in out
  {
    if out != [] && IsIndex(out[0].key) && !Smaller(p.key, out[0].key) {
      PutMembers(out[1..], p);
      assert out == [out[0]] + out[1..];
    }
  }

  /** Filling loses "__proto__" alone. */
  lemma {:induction false} FillMembers<V>(ps: seq<Keyed<V>>, q: Keyed<V>)
    ensures q in Fill(ps) <==> q in ps && q.key != PROTO
    decreases |ps|
  {
    if ps != [] {
      assert ps == ps[..|ps| - 1] + [ps[|ps| - 1]];
      FillMembers(ps[..|ps| - 1], q);
      PutMembers(Fill(ps[..|ps| - 1]), ps[|ps| - 1]);
    }
  }

  /** Filling from sorted keys puts them in the object's own order. */
  lemma {:induction false} FillFits<V>(ps: seq<Keyed<V>>)
    requires Ordered(Keys(ps)) && Distinct(Keys(ps))
    ensures OrderedBy(Before, Keys(Fill(ps))) && Distinct(Keys(Fill(ps)))
    decreases |ps|
  {
    if ps != [] {
      var (init, p) := (ps[..|ps| - 1], ps[|ps| - 1]);
      assert Keys(ps) == Keys(init) + [p.key] && forall i :: 0 <= i < |init| ==> Keys(init)[i] == Keys(ps)[i];
      FillFits(init);
      var out := Fill(init);
      forall k | k in Keys(out) ensures Leq(k, p.key) && k != p.key {
        var i :| 0 <= i < |out| && Keys(out)[i] == k;
        FillMembers(init, out[i]);
        var j :| 0 <= j < |init| && init[j] == out[i];
        assert Keys(ps)[j] == k && Keys(ps)[|init|] == p.key;
      }
      hide Ordered, OrderedBy, Distinct, Before, Leq, Keys, PutIndex;
      if p.key != PROTO {
        if IsIndex(p.key) {
          PutIndexFits(out, p);
        } else {
          AppendFits(out, p);
        }
      }
    }
  }

  lemma AppendFits<V>(out: seq<Keyed<V>>, p: Keyed<V>)
    requires OrderedBy(Before, Keys(out)) && Distinct(Keys(out)) && !IsIndex(p.key)
    requires forall k :: k in Keys(out) ==> Leq(k, p.key) && k != p.key
    ensures OrderedBy(Before, Keys(out + [p])) && Distinct(Keys(out + [p]))
  {
    hide IsIndex, Leq;
    assert Keys(out + [p]) == Keys(out) + [p.key];
    assert forall i :: 0 <= i < |out| ==> Keys(out)[i] in Keys(out);
  }

  // ----- what an object prints

  function FieldKeys(fields: seq<Field>): seq<Text> {
    seq(|fields|, i requires 0 <= i < |fields| => fields[i].key)
  }

  ghost predicate PrintsAs(ps: seq<Keyed<Value>>, f: Field) {
    exists p :: p in ps && p.key == f.key && Serial(p.value) == Some(f.value)
  }

  lemma {:induction false} SerialPropsOrdered(ps: seq<Keyed<Value>>)
    requires OrderedBy(Before, Keys(ps)) && Distinct(Keys(ps))
    ensures var fields := SerialProps(ps);
            && OrderedBy(Before, FieldKeys(fields)) && Distinct(FieldKeys(fields))
            && (forall k :: k in FieldKeys(fields) ==> k in Keys(ps))
  {
    if ps != [] {
      assert Keys(ps) == [ps[0].key] + Keys(ps[1..]) && Keys(ps)[1..] == Keys(ps[1..]);
      OrderedByRest(Keys(ps));
      DistinctTail(Keys(ps));
      SerialPropsOrdered(ps[1..]);
      var rest := SerialProps(ps[1..]);
      if Serial(ps[0].value).Some? {
        var first := Field(ps[0].key, Serial(ps[0].value).value);
        assert SerialProps(ps) == [first] + rest;
        assert FieldKeys([first] + rest) == [first.key] + FieldKeys(rest);
        hide Before, OrderedBy, Distinct, Serial, SerialProps;
        OrderedByCons(first.key, FieldKeys(rest));
        DistinctCons(first.key, FieldKeys(rest));
      } else {
        assert SerialProps(ps) == rest;
      }
    }
  }

  lemma {:induction false} SerialPropsMembers(ps: seq<Keyed<Value>>, f: Field)
    ensures f in SerialProps(ps) <==> PrintsAs(ps, f)
  {
    if ps != [] {
      SerialPropsMembers(ps[1..], f);
      PrintsAsCons(ps, f);
    }
  }

  lemma PrintsAsCons(ps: seq<Keyed<Value>>, f: Field)
    requires ps != []
    ensures PrintsAs(ps, f) <==> PrintsAs(ps[1..], f) || (ps[0].key == f.key && Serial(ps[0].value) == Some(f.value))
  {
    if PrintsAs(ps, f) {
      var p :| p in ps && p.key == f.key && Serial(p.value) == Some(f.value);
      var i :| 0 <= i < |ps| && ps[i] == p;
      assert i > 0 ==> p in ps[1..];
    }
  }

  /** A property of the object that is printed, and how. */
  ghost predicate HasField(props: seq<Keyed<Value>>, f: Field) {
    f.key != PROTO && exists p :: p in props && p.key == f.key && StableTree(p.value) == Some(f.value)
  }

  function RecordFields(props: seq<Keyed<Value>>): seq<Field> {
    SerialProps(Fill(SortByKey(StableProps(props))))
  }

  lemma RecordFieldsFit(props: seq<Keyed<Value>>)
    requires Distinct(Keys(props))
    ensures OrderedBy(Before, FieldKeys(RecordFields(props))) && Distinct(FieldKeys(RecordFields(props)))
    ensures forall f :: f in RecordFields(props) <==> HasField(props, f)
  {
    var stable := StableProps(props);
    StableKeys(props);
    SortIsOrdered(stable);
    SortDistinct(stable);
    FillFits(SortByKey(stable));
    SerialPropsOrdered(Fill(SortByKey(stable)));
    hide Fill, SortByKey, SerialProps, StableProps, HasField, OrderedBy, Distinct;
    forall f: Field ensures f in RecordFields(props) <==> HasField(props, f) {
      RecordFieldsAre(props, f);
    }
  }

  lemma StableKeys(props: seq<Keyed<Value>>)
    ensures Keys(StableProps(props)) == Keys(props)
  {
    forall k | 0 <= k < |props| ensures StableProps(props)[k].key == props[k].key {
      StablePropsAt(props, k);
    }
  }

  lemma RecordFieldsAre(props: seq<Keyed<Value>>, f: Field)
    ensures f in RecordFields(props) <==> HasField(props, f)
  {
    var stable := StableProps(props);
    var filled := Fill(SortByKey(stable));
    SerialPropsMembers(filled, f);
    SortedIsPermutation(stable);
    hide Fill, SortByKey, SerialProps, StableProps, Stable, Serial;
    if PrintsAs(filled, f) {
      var q :| q in filled && q.key == f.key && Serial(q.value) == Some(f.value);
      FillMembers(SortByKey(stable), q);
      var k :| 0 <= k < |stable| && stable[k] == q;
      StablePropsAt(props, k);
      assert props[k] in props && StableTree(props[k].value) == Some(f.value);
    }
    if HasField(props, f) {
      var p :| p in props && p.key == f.key && StableTree(p.value) == Some(f.value);
      var k :| 0 <= k < |props| && props[k] == p;
      StablePropsAt(props, k);
      FillMembers(SortByKey(stable), stable[k]);
      assert stable[k] in filled;
    }
  }

  // ----- what a value means, whatever order its keys were added in

  datatype Meaning =
    | MNull
    | MBool(b: bool)
    | MNumber(token: NumberToken)
    | MString(s: Text)
    | MList(items: seq<Meaning>)
    | MRecord(members: map<Text, Meaning>)

  function MeaningOf(v: Value): Option<Meaning> {
    match v
    case Missing => None
    case Nothing => Some(MNull)
    case Truth(b) => Some(MBool(b))
    case Number(token) => Some(MNumber(token))
    case NonFinite => Some(MNull)
    case Chars(s) => Some(MString(s))
    case List(items) => Some(MList(MeaningsOf(items)))
    case Record(props) => Some(MRecord(Members(props)))
  }

  function ItemMeaning(m: Option<Meaning>): Meaning {
    if m.Some? then m.value else MNull
  }

  function MeaningsOf(items: seq<Value>): (r: seq<Meaning>)
    ensures |r| == |items|
  {
    if items == [] then [] else [ItemMeaning(MeaningOf(items[0]))] + MeaningsOf(items[1..])
  }

  function Members(props: seq<Keyed<Value>>): map<Text, Meaning> {
    if props == [] then map[]
    else
      var rest := Members(props[1..]);
      var m := MeaningOf(props[0].value);
      if props[0].key == PROTO || m.None? then rest else rest[props[0].key := m.value]
  }

  /** An object has one property for each key, at every level. */
  predicate Proper(v: Value) {
    match v
    case List(items) => forall k :: 0 <= k < |items| ==> Proper(items[k])
    case Record(props) => Distinct(Keys(props)) && forall k :: 0 <= k < |props| ==> Proper(props[k].value)
    case _ => true
  }

  ghost predicate HasMember(props: seq<Keyed<Value>>, key: Text, m: Meaning) {
    key != PROTO && exists p :: p in props && p.key == key && MeaningOf(p.value) == Some(m)
  }

  lemma {:induction false} MembersAre(props: seq<Keyed<Value>>)
    requires Distinct(Keys(props))
    ensures forall k :: k in Members(props) ==> HasMember(props, k, Members(props)[k])
    ensures forall k, m :: HasMember(props, k, m) ==> k in Members(props) && Members(props)[k] == m
  {
    if props != [] {
      assert Keys(props) == [props[0].key] + Keys(props[1..]) && Keys(props)[1..] == Keys(props[1..]);
      DistinctTail(Keys(props));
      MembersAre(props[1..]);
      forall k, m
        ensures HasMember(props, k, m) <==>
          HasMember(props[1..], k, m) || (k != PROTO && props[0].key == k && MeaningOf(props[0].value) == Some(m))
      {
        HasMemberCons(props, k, m);
      }
      forall m ensures !HasMember(props[1..], props[0].key, m) {
        NoSuchMember(props[1..], props[0].key, m);
      }
    }
  }

  lemma HasMemberCons(props: seq<Keyed<Value>>, k: Text, m: Meaning)
    requires props != []
    ensures HasMember(props, k, m) <==>
      HasMember(props[1..], k, m) || (k != PROTO && props[0].key == k && MeaningOf(props[0].value) == Some(m))
  {
    if HasMember(props, k, m) {
      var p :| p in props && p.key == k && MeaningOf(p.value) == Some(m);
      var i :| 0 <= i < |props| && props[i] == p;
      assert i > 0 ==> p in props[1..];
    }
  }

  lemma NoSuchMember(props: seq<Keyed<Value>>, k: Text, m: Meaning)
    requires k !in Keys(props)
    ensures !HasMember(props, k, m)
  {
    forall p | p in props ensures p.key != k {
      var i :| 0 <= i < |props| && props[i] == p;
      assert Keys(props)[i] in Keys(props);
    }
  }

  // ----- the text says exactly what the value means

  lemma TreeExists(v: Value)
    ensures StableTree(v).Some? <==> !v.Missing?
    ensures MeaningOf(v).Some? <==> !v.Missing?
    ensures MeaningOf(v) == Some(MNull) ==> StableTree(v) == Some(Null)
  {
  }

  function ItemTree(v: Value): Json {
    if StableTree(v).Some? then StableTree(v).value else Null
  }

  lemma {:induction false} ItemsAt(items: seq<Value>, k: nat)
    requires k < |items|
    ensures |SerialItems(StableItems(items))| == |items|
    ensures SerialItems(StableItems(items))[k] == ItemTree(items[k])
    ensures MeaningsOf(items)[k] == ItemMeaning(MeaningOf(items[k]))
  {
    assert StableItems(items)[1..] == StableItems(items[1..]);
    if |items| > 1 {
      ItemsAt(items[1..], if k > 0 then k - 1 else 0);
    }
  }

  lemma {:induction false} TreesFollowMeaning(v: Value, w: Value)
    requires Proper(v) && Proper(w) && MeaningOf(v) == MeaningOf(w)
    ensures StableTree(v) == StableTree(w)
    decreases v, 2
  {
    TreeExists(v);
    TreeExists(w);
    if v.List? {
      ListsFollowMeaning(v, w);
    } else if v.Record? {
      RecordsFollowMeaning(v, w);
    }
  }

  lemma {:induction false} ListsFollowMeaning(v: Value, w: Value)
    requires Proper(v) && Proper(w) && v.List? && w.List? && MeaningOf(v) == MeaningOf(w)
    ensures StableTree(v) == StableTree(w)
    decreases v, 1
  {
    var (a, b) := (SerialItems(StableItems(v.items)), SerialItems(StableItems(w.items)));
    assert |v.items| == |w.items|;
    forall k | 0 <= k < |v.items| ensures |a| == |b| == |v.items| && a[k] == b[k] {
      ItemsAt(v.items, k);
      ItemsAt(w.items, k);
      TreeExists(v.items[k]);
      TreeExists(w.items[k]);
      if MeaningOf(v.items[k]) == MeaningOf(w.items[k]) {
        TreesFollowMeaning(v.items[k], w.items[k]);
      }
    }
    assert a == b;
  }

  lemma {:induction false} RecordsFollowMeaning(v: Value, w: Value)
    requires Proper(v) && Proper(w) && v.Record? && w.Record? && MeaningOf(v) == MeaningOf(w)
    ensures StableTree(v) == StableTree(w)
    decreases v, 1
  {
    var (a, b) := (RecordFields(v.props), RecordFields(w.props));
    RecordFieldsFit(v.props);
    RecordFieldsFit(w.props);
    forall f: Field ensures f in a <==> f in b {
      if HasField(v.props, f) {
        FieldFollowsMeaning(v, w, f);
      }
      if HasField(w.props, f) {
        FieldFollowsMeaningBack(v, w, f);
      }
    }
    SameFields(a, b);
  }

  lemma {:induction false} FieldFollowsMeaning(v: Value, w: Value, f: Field)
    requires Proper(v) && Proper(w) && v.Record? && w.Record? && MeaningOf(v) == MeaningOf(w) && HasField(v.props, f)
    ensures HasField(w.props, f)
    decreases v, 0
  {
    var p :| p in v.props && p.key == f.key && StableTree(p.value) == Some(f.value);
    TreeExists(p.value);
    var m := MeaningOf(p.value).value;
    MembersAre(v.props);
    MembersAre(w.props);
    assert HasMember(v.props, f.key, m);
    assert HasMember(w.props, f.key, m);
    var q :| q in w.props && q.key == f.key && MeaningOf(q.value) == Some(m);
    TreesFollowMeaning(p.value, q.value);
  }

  lemma {:induction false} FieldFollowsMeaningBack(v: Value, w: Value, f: Field)
    requires Proper(v) && Proper(w) && v.Record? && w.Record? && MeaningOf(v) == MeaningOf(w) && HasField(w.props, f)
    ensures HasField(v.props, f)
    decreases v, 0
  {
    var q :| q in w.props && q.key == f.key && StableTree(q.value) == Some(f.value);
    TreeExists(q.value);
    var m := MeaningOf(q.value).value;
    MembersAre(v.props);
    MembersAre(w.props);
    assert HasMember(w.props, f.key, m);
    assert HasMember(v.props, f.key, m);
    var p :| p in v.props && p.key == f.key && MeaningOf(p.value) == Some(m);
    TreesFollowMeaning(p.value, q.value);
  }

  lemma SameFields(a: seq<Field>, b: seq<Field>)
    requires OrderedBy(Before, FieldKeys(a)) && Distinct(FieldKeys(a)) && OrderedBy(Before, FieldKeys(b)) && Distinct(FieldKeys(b))
    requires forall f :: f in a <==> f in b
    ensures a == b
  {
    forall x, y | Before(x, y) && Before(y, x) ensures x == y {
      BeforeIsAnOrder(x, y, y);
    }
    hide Before;
    forall k ensures k in FieldKeys(a) <==> k in FieldKeys(b) {
      if k in FieldKeys(a) {
        var i :| 0 <= i < |a| && FieldKeys(a)[i] == k;
        assert a[i] in b;
        var j :| 0 <= j < |b| && b[j] == a[i];
        assert FieldKeys(b)[j] == k;
      }
      if k in FieldKeys(b) {
        var i :| 0 <= i < |b| && FieldKeys(b)[i] == k;
        assert b[i] in a;
        var j :| 0 <= j < |a| && a[j] == b[i];
        assert FieldKeys(a)[j] == k;
      }
    }
    OrderedUnique(Before, FieldKeys(a), FieldKeys(b));
    assert |a| == |FieldKeys(a)| == |b|;
    forall i | 0 <= i < |a| ensures a[i] == b[i] {
      assert a[i] in b;
      var j :| 0 <= j < |b| && b[j] == a[i];
      assert FieldKeys(b)[j] == FieldKeys(a)[i] == FieldKeys(b)[i];
    }
  }

  // ----- reading the stored text back

  /** What JSON.parse makes of a JSON tree. */
  function FromJson(j: Json): Value {
    match j
    case Hole => Missing
    case Null => Nothing
    case Bool(b) => Truth(b)
    case Num(token) => Number(token)
    case Str(s) => Chars(s)
    case Arr(items) => List(FromItems(items))
    case Obj(fields) => Record(FromFields(fields))
  }

  function FromItems(items: seq<Json>): (r: seq<Value>)
    ensures |r| == |items|
  {
    if items == [] then [] else [FromJson(items[0])] + FromItems(items[1..])
  }

  function FromFields(fields: seq<Field>): (r: seq<Keyed<Value>>)
    ensures |r| == |fields|
  {
    if fields == [] then [] else [Keyed(fields[0].key, FromJson(fields[0].value))] + FromFields(fields[1..])
  }

  lemma {:induction false} FromItemsAt(items: seq<Json>, k: nat)
    requires k < |items|
    ensures FromItems(items)[k] == FromJson(items[k])
  {
    if k > 0 {
      FromItemsAt(items[1..], k - 1);
    }
  }

  lemma {:induction false} FromFieldsAt(fields: seq<Field>, k: nat)
    requires k < |fields|
    ensures FromFields(fields)[k] == Keyed(fields[k].key, FromJson(fields[k].value))
  {
    if k > 0 {
      FromFieldsAt(fields[1..], k - 1);
    }
  }

  /** The tree read back from a printed value means what the value meant. */
  ghost predicate ReadsBack(v: Value) {
    StableTree(v).Some? ==>
      var j := StableTree(v).value;
      Dense(j) && Proper(FromJson(j)) && MeaningOf(FromJson(j)) == MeaningOf(v)
  }

  lemma {:induction false} TreeReadsBack(v: Value)
    requires Proper(v)
    ensures ReadsBack(v)
    decreases v, 2
  {
    if v.List? {
      ListReadsBack(v);
    } else if v.Record? {
      RecordReadsBack(v);
    }
  }

  lemma {:induction false} ListReadsBack(v: Value)
    requires Proper(v) && v.List?
    ensures ReadsBack(v)
    decreases v, 1
  {
    var trees := SerialItems(StableItems(v.items));
    assert StableTree(v) == Some(Arr(trees));
    forall k | 0 <= k < |v.items|
      ensures Dense(trees[k]) && Proper(FromItems(trees)[k])
      ensures MeaningsOf(FromItems(trees))[k] == MeaningsOf(v.items)[k]
    {
      ItemsAt(v.items, k);
      FromItemsAt(trees, k);
      ItemsAt(FromItems(trees), k);
      TreeReadsBack(v.items[k]);
      TreeExists(v.items[k]);
    }
    assert MeaningsOf(FromItems(trees)) == MeaningsOf(v.items);
  }

  lemma {:induction false} RecordReadsBack(v: Value)
    requires Proper(v) && v.Record?
    ensures ReadsBack(v)
    decreases v, 1
  {
    var fields := RecordFields(v.props);
    assert StableTree(v) == Some(Obj(fields));
    RecordFieldsFit(v.props);
    var back := FromFields(fields);
    forall k | 0 <= k < |fields|
      ensures Dense(fields[k].value) && back[k].key == fields[k].key && Proper(back[k].value) && SameMember(v.props, back[k])
    {
      hide RecordFields, StableTree, MeaningOf, SameMember, HasField;
      FromFieldsAt(fields, k);
      assert HasField(v.props, fields[k]);
      FieldReadsBack(v, fields[k]);
    }
    assert Keys(back) == FieldKeys(fields);
    hide Dense, RecordFields, StableTree, SameMember, HasMember, FromFields;
    forall p | p in v.props && p.key != PROTO && MeaningOf(p.value).Some? ensures HasMember(back, p.key, MeaningOf(p.value).value) {
      MemberReadsBack(v, fields, p);
    }
    SameMembers(v.props, back);
  }

  /** The entry stands for a property of the object that has its key and its meaning. */
  ghost predicate SameMember(props: seq<Keyed<Value>>, q: Keyed<Value>) {
    MeaningOf(q.value).Some? && HasMember(props, q.key, MeaningOf(q.value).value)
  }

  lemma {:induction false} FieldReadsBack(v: Value, f: Field)
    requires Proper(v) && v.Record? && HasField(v.props, f)
    ensures Dense(f.value) && Proper(FromJson(f.value)) && SameMember(v.props, Keyed(f.key, FromJson(f.value)))
    decreases v, 0
  {
    var p :| p in v.props && p.key == f.key && StableTree(p.value) == Some(f.value);
    TreeReadsBack(p.value);
    TreeExists(p.value);
  }

  lemma MemberReadsBack(v: Value, fields: seq<Field>, p: Keyed<Value>)
    requires v.Record? && Proper(v) && p in v.props && p.key != PROTO && MeaningOf(p.value).Some?
    requires forall f :: f in fields <==> HasField(v.props, f)
    ensures HasMember(FromFields(fields), p.key, MeaningOf(p.value).value)
    decreases v, 0
  {
    TreeExists(p.value);
    var f := Field(p.key, StableTree(p.value).value);
    assert HasField(v.props, f);
    var k :| 0 <= k < |fields| && fields[k] == f;
    FromFieldsAt(fields, k);
    TreeReadsBack(p.value);
    assert FromFields(fields)[k] in FromFields(fields);
  }

  lemma SameMembers(props: seq<Keyed<Value>>, back: seq<Keyed<Value>>)
    requires Distinct(Keys(props)) && Distinct(Keys(back))
    requires forall k :: 0 <= k < |back| ==> SameMember(props, back[k])
    requires forall p :: p in props && p.key != PROTO && MeaningOf(p.value).Some? ==> HasMember(back, p.key, MeaningOf(p.value).value)
    ensures Members(back) == Members(props)
  {
    MembersAre(props);
    MembersAre(back);
    forall k | k in Members(back) ensures k in Members(props) && Members(props)[k] == Members(back)[k] {
      var q :| q in back && q.key == k && MeaningOf(q.value) == Some(Members(back)[k]);
      assert SameMember(props, q);
    }
    forall k | k in Members(props) ensures k in Members(back) {
      var p :| p in props && p.key == k && MeaningOf(p.value) == Some(Members(props)[k]);
      assert HasMember(back, p.key, MeaningOf(p.value).value);
    }
  }

  // ----- what is promised of the text

  lemma TextReadsBack(v: Value)
    requires Proper(v) && StableAuditJson(v).Some?
    ensures StableTree(v).Some? && Parse(StableAuditJson(v).value) == Some(Parsed(StableTree(v).value, []))
  {
    TreeReadsBack(v);
    var j := StableTree(v).value;
    ParseInvertsPrint(j, []);
    assert Print(j) + [] == Print(j);
  }

  /**
   * Two values have the same text exactly when they mean the same: whatever the
   * order of their keys, and with what JSON cannot say left out.
   */
  lemma SameTextExactlyWhenSameMeaning(v: Value, w: Value)
    requires Proper(v) && Proper(w)
    ensures StableAuditJson(v) == StableAuditJson(w) <==> MeaningOf(v) == MeaningOf(w)
  {
    TreeExists(v);
    TreeExists(w);
    if MeaningOf(v) == MeaningOf(w) {
      TreesFollowMeaning(v, w);
    }
    if StableAuditJson(v) == StableAuditJson(w) && StableAuditJson(v).Some? {
      TextReadsBack(v);
      TextReadsBack(w);
      TreeReadsBack(v);
      TreeReadsBack(w);
    }
  }

  /** A row stores the text: parsing it and printing it again gives the very text that was sealed. */
  lemma StoredTextSettles(v: Value)
    requires Proper(v) && StableAuditJson(v).Some?
    ensures var t := StableAuditJson(v).value;
            && Parse(t).Some? && Parse(t).value.rest == []
            && StableAuditJson(FromJson(Parse(t).value.value)) == Some(t)
  {
    TextReadsBack(v);
    TreeReadsBack(v);
    SameTextExactlyWhenSameMeaning(FromJson(StableTree(v).value), v);
  }

  /** Data under the key "__proto__" never reaches the text. */
  lemma ProtoIsNotRecorded(v: Value)
    ensures StableAuditJson(Record([Keyed(PROTO, v)])) == StableAuditJson(Record([]))
  {
    var stable := StableProps([Keyed(PROTO, v)]);
    assert SortByKey(stable) == stable;
    FillStep(stable, 0);
    assert stable[..1] == stable && stable[..0] == [];
  }

  // ----- the text under the seal

  /** What a sealed event records; `seqToken` is its number as printed. */
  datatype Event = Event(
    tenant: Text, seqToken: NumberToken, actor: Option<Text>, eventType: Text, entityType: Text, entity: Option<Text>,
    data: Value, occurredAt: Text, prevHash: Text)

  function Optional(t: Option<Text>): Value {
    if t.None? then Nothing else Chars(t.value)
  }

  const ONE: NumberToken := [0x31]

  function SealKeys(): (keys: seq<Text>)
    ensures |keys| == 10
  {
    [Letters("tenantId"), Letters("seq"), Letters("actorUserId"), Letters("eventType"), Letters("entityType"), Letters("entityId"),
     Letters("eventData"), Letters("occurredAt"), Letters("prevHash"), Letters("integrityVersion")]
  }

  function SealValues(e: Event, stored: Value): (values: seq<Value>)
    ensures |values| == 10
  {
    [Chars(e.tenant), Number(e.seqToken), Optional(e.actor), Chars(e.eventType), Chars(e.entityType), Optional(e.entity),
     stored, Chars(e.occurredAt), Chars(e.prevHash), Number(ONE)]
  }

  /** The object whose text is hashed; `stored` is the event's data, parsed from the text the row stores. */
  function HashInput(e: Event, stored: Value): (input: Value)
    ensures input.Record? && |input.props| == 10
  {
    Record(seq(10, i requires 0 <= i < 10 => Keyed(SealKeys()[i], SealValues(e, stored)[i])))
  }

  /** The text the seal is computed over when an event is written. */
  function SealText(e: Event): Option<Text> {
    match StableAuditJson(e.data)
    case None => None
    case Some(normalized) =>
      match Parse(normalized)
      case None => None
      case Some(parsed) => StableAuditJson(HashInput(e, FromJson(parsed.value)))
  }

  /** The same event: the same fields, and data that means the same. */
  predicate SameEvent(e: Event, e': Event) {
    e.(data := e'.data) == e' && MeaningOf(e.data) == MeaningOf(e'.data)
  }

  /** Lengths and a few letters tell the ten keys apart. */
  lemma SealKeyShapes()
    ensures var keys := SealKeys();
            && |keys[0]| == |keys[5]| == |keys[8]| == 8 && |keys[1]| == 3 && |keys[2]| == 11 && |keys[9]| == 16
            && |keys[3]| == |keys[6]| == 9 && |keys[4]| == |keys[7]| == 10
            && keys[0][0] == 0x74 && keys[5][0] == 0x65 && keys[8][0] == 0x70 && keys[4][0] == 0x65 && keys[7][0] == 0x6f
            && keys[3][0] == keys[6][0] == 0x65 && keys[3][5] == 0x54 && keys[6][5] == 0x44
  {
  }

  lemma SealKeysApart()
    ensures Distinct(SealKeys())
  {
    SealKeyShapes();
    var keys := SealKeys();
    hide SealKeys;
    forall i, j | 0 <= i < j < 10 ensures keys[i] != keys[j] {
      if |keys[i]| == |keys[j]| {
        assert (i == 0 && j == 5) || (i == 0 && j == 8) || (i == 5 && j == 8) || (i == 3 && j == 6) || (i == 4 && j == 7);
      }
    }
  }

  lemma SealKeysDistinct(e: Event, stored: Value)
    ensures Distinct(Keys(HashInput(e, stored).props))
    ensures forall k :: 0 <= k < 10 ==> SealKeys()[k] != PROTO
  {
    SealKeyShapes();
    SealKeysApart();
    hide SealKeys, Distinct;
    assert Keys(HashInput(e, stored).props) == SealKeys();
  }

  lemma {:induction false} MembersFollow(a: seq<Keyed<Value>>, b: seq<Keyed<Value>>)
    requires |a| == |b| && forall k :: 0 <= k < |a| ==> a[k].key == b[k].key && MeaningOf(a[k].value) == MeaningOf(b[k].value)
    ensures Members(a) == Members(b)
  {
    if a != [] {
      MembersFollow(a[1..], b[1..]);
    }
  }

  /** A member of the hashed object can be read off its meaning. */
  lemma SealMember(e: Event, stored: Value, k: nat)
    requires k < 10 && MeaningOf(SealValues(e, stored)[k]).Some?
    ensures SealKeys()[k] in Members(HashInput(e, stored).props)
    ensures Members(HashInput(e, stored).props)[SealKeys()[k]] == MeaningOf(SealValues(e, stored)[k]).value
  {
    var props := HashInput(e, stored).props;
    SealKeysDistinct(e, stored);
    MembersAre(props);
    hide SealKeys, SealValues;
    assert props[k] in props;
    assert HasMember(props, SealKeys()[k], MeaningOf(SealValues(e, stored)[k]).value);
  }

  lemma StoredMeaning(e: Event)
    requires Proper(e.data) && !e.data.Missing?
    ensures StableAuditJson(e.data).Some? && Parse(StableAuditJson(e.data).value).Some?
    ensures var stored := FromJson(Parse(StableAuditJson(e.data).value).value.value);
            Proper(stored) && MeaningOf(stored) == MeaningOf(e.data) && SealText(e) == StableAuditJson(HashInput(e, stored))
  {
    TreeExists(e.data);
    TextReadsBack(e.data);
    TreeReadsBack(e.data);
  }

  lemma SealMembersTell(e: Event, stored: Value, e': Event, stored': Value)
    requires MeaningOf(stored).Some? && MeaningOf(stored').Some?
    requires Members(HashInput(e, stored).props) == Members(HashInput(e', stored').props)
    ensures forall k :: 0 <= k < 10 ==> MeaningOf(SealValues(e, stored)[k]) == MeaningOf(SealValues(e', stored')[k])
  {
    forall k | 0 <= k < 10 ensures MeaningOf(SealValues(e, stored)[k]) == MeaningOf(SealValues(e', stored')[k]) {
      SealValuesMean(e, stored, k);
      SealValuesMean(e', stored', k);
      hide SealKeys, SealValues, HashInput, Members;
      SealMember(e, stored, k);
      SealMember(e', stored', k);
    }
  }

  lemma SealValuesMean(e: Event, stored: Value, k: nat)
    requires k < 10 && MeaningOf(stored).Some?
    ensures MeaningOf(SealValues(e, stored)[k]).Some?
  {
  }

  lemma SealProper(e: Event, stored: Value)
    requires Proper(stored)
    ensures Proper(HashInput(e, stored))
  {
    SealKeysDistinct(e, stored);
    forall k | 0 <= k < 10 ensures Proper(SealValues(e, stored)[k]) {
    }
    hide Distinct, SealKeys, SealValues;
  }

  lemma SameInputExactlyWhenSameEvent(e: Event, stored: Value, e': Event, stored': Value)
    requires MeaningOf(stored).Some? && MeaningOf(stored').Some?
    requires MeaningOf(stored) == MeaningOf(e.data) && MeaningOf(stored') == MeaningOf(e'.data)
    ensures MeaningOf(HashInput(e, stored)) == MeaningOf(HashInput(e', stored')) <==> SameEvent(e, e')
  {
    if SameEvent(e, e') {
      forall k | 0 <= k < 10 ensures MeaningOf(SealValues(e, stored)[k]) == MeaningOf(SealValues(e', stored')[k]) {
      }
      hide SealKeys, SealValues;
      MembersFollow(HashInput(e, stored).props, HashInput(e', stored').props);
    }
    if MeaningOf(HashInput(e, stored)) == MeaningOf(HashInput(e', stored')) {
      hide SealKeys, SealValues, HashInput, Members;
      SealMembersTell(e, stored, e', stored');
      FieldsTell(e, stored, e', stored');
    }
  }

  /**
   * Two events are sealed over the same text exactly when they are the same
   * event; so with a hash that never collides, a seal fits one event only.
   */
  lemma SealTextDeterminesEvent(e: Event, e': Event)
    requires Proper(e.data) && Proper(e'.data) && !e.data.Missing? && !e'.data.Missing?
    ensures SealText(e).Some?
    ensures SealText(e) == SealText(e') <==> SameEvent(e, e')
  {
    StoredMeaning(e);
    StoredMeaning(e');
    TreeExists(e.data);
    TreeExists(e'.data);
    var stored := FromJson(Parse(StableAuditJson(e.data).value).value.value);
    var stored' := FromJson(Parse(StableAuditJson(e'.data).value).value.value);
    TreeExists(HashInput(e, stored));
    assert StableAuditJson(HashInput(e, stored)).Some?;
    hide StableAuditJson, SealText, Proper, Members, HashInput, SameEvent, MeaningOf;
    SealProper(e, stored);
    SealProper(e', stored');
    SameTextExactlyWhenSameMeaning(HashInput(e, stored), HashInput(e', stored'));
    SameInputExactlyWhenSameEvent(e, stored, e', stored');
  }

  lemma FieldsTell(e: Event, stored: Value, e': Event, stored': Value)
    requires forall k :: 0 <= k < 10 ==> MeaningOf(SealValues(e, stored)[k]) == MeaningOf(SealValues(e', stored')[k])
    requires MeaningOf(stored) == MeaningOf(e.data) && MeaningOf(stored') == MeaningOf(e'.data)
    ensures SameEvent(e, e')
  {
    var (a, b) := (SealValues(e, stored), SealValues(e', stored'));
    assert MeaningOf(a[0]) == MeaningOf(b[0]) && MeaningOf(a[1]) == MeaningOf(b[1]) && MeaningOf(a[2]) == MeaningOf(b[2]);
    assert MeaningOf(a[3]) == MeaningOf(b[3]) && MeaningOf(a[4]) == MeaningOf(b[4]) && MeaningOf(a[5]) == MeaningOf(b[5]);
    assert MeaningOf(a[6]) == MeaningOf(b[6]) && MeaningOf(a[7]) == MeaningOf(b[7]) && MeaningOf(a[8]) == MeaningOf(b[8]);
  }
}
