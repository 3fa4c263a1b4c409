/** What the canonical text of a value is: which values have one, and which text it is. */
module JsonOutcomes {
  import opened Wrappers
  import opened Utf16Text
  import opened KeySort
  import opened JsonText
  import opened CanonicalJson

  // ----- the tree a value stands for

  /** The places that hold an element. */
  function Filled(slots: seq<Slot>): set<nat> {
    set k | 0 <= k < |slots| && slots[k] != Absent
  }

  /** An array of the language's own kind, without symbol keys or accessors, with as many own keys as its length. */
  predicate PlainArray(standardPrototype: bool, symbols: bool, slots: seq<Slot>, extras: seq<ExtraKey>) {
    && standardPrototype && !symbols
    && (forall k :: 0 <= k < |slots| ==> slots[k] != Accessor)
    && (forall k :: 0 <= k < |extras| ==> extras[k].looksLikeIndex && !extras[k].accessor)
    && |Filled(slots)| + |extras| == |slots|
  }

  /** The keys rise strictly, code unit by code unit. */
  predicate Rising(fields: seq<Field>) {
    forall i, j :: 0 <= i < j < |fields| ==> fields[i].key != fields[j].key && NotAfter(fields[i].key, fields[j].key)
  }

  /**
   * The tree says what the value says: scalars as they are, arrays place by
   * place, a plain object's properties in rising order of their keys.
   */
  ghost predicate Denotes(h: Heap, v: Value, j: Json)
    decreases j
  {
    match v
    case VNull => j == Null
    case VBool(b) => j == Bool(b)
    case VNumber(token) => j == Num(token)
    case VString(s) => j == Str(s)
    case VObject(r) =>
      (match h(r)
       case ArrayNode(standardPrototype, symbols, slots, extras) =>
         && PlainArray(standardPrototype, symbols, slots, extras)
         && j.Arr? && |j.items| == |slots|
         && (forall k :: 0 <= k < |slots| ==>
               (slots[k] == Absent && j.items[k] == Hole) || (slots[k].Data? && Denotes(h, slots[k].value, j.items[k])))
       case ObjectNode(plainPrototype, symbols, props) =>
         plainPrototype && !symbols && j.Obj? && FieldsDenote(h, props, j.fields))
    case _ => false
  }

  /** One field for each property, in rising order of the keys. */
  ghost predicate FieldsDenote(h: Heap, props: seq<Prop>, fields: seq<Field>)
    decreases fields
  {
    && Rising(fields)
    && (forall k :: 0 <= k < |fields| ==> HoldsField(h, props, fields[k]))
    && (forall p :: p in props ==> p.value.Data? && HasField(fields, p.key))
  }

  ghost predicate HoldsField(h: Heap, props: seq<Prop>, f: Field)
    decreases f
  {
    exists p :: p in props && p.key == f.key && p.value.Data? && Denotes(h, p.value.value, f.value)
  }

  predicate HasField(fields: seq<Field>, key: Text) {
    exists k :: 0 <= k < |fields| && fields[k].key == key
  }

  predicate HasKey(props: seq<Prop>, key: Text) {
    exists p :: p in props && p.key == key
  }

  /** No more levels of nesting than given. */
  predicate Fits(j: Json, levels: nat)
    decreases j
  {
    match j
    case Hole => true
    case Arr(items) => levels > 0 && forall k :: 0 <= k < |items| ==> Fits(items[k], levels - 1)
    case Obj(fields) => levels > 0 && forall k :: 0 <= k < |fields| ==> Fits(fields[k].value, levels - 1)
    case _ => levels > 0
  }

  lemma {:induction false} FilledCounts(slots: seq<Slot>)
    ensures Present(slots) == |Filled(slots)|
    decreases |slots|
  {
    if slots != [] {
      var tail := slots[1..];
      FilledCounts(tail);
      Shift(Filled(tail));
      assert Filled(slots) == (if slots[0] == Absent then {} else {0}) + Shifted(Filled(tail)) by {
        forall k: nat ensures k in Filled(slots) <==> k in (if slots[0] == Absent then {} else {0}) + Shifted(Filled(tail)) {
          InShifted(Filled(tail), k);
          if k > 0 && k < |slots| {
            assert slots[k] == tail[k - 1];
          }
        }
      }
    }
  }

  function Shifted(s: set<nat>): set<nat> {
    set k: nat | k in s :: k + 1
  }

  lemma InShifted(s: set<nat>, y: nat)
    ensures y in Shifted(s) <==> y > 0 && y - 1 in s
  {
    if y > 0 && y - 1 in s {
      var k: nat := y - 1;
      assert k in s && k + 1 == y;
    }
  }

  lemma {:induction false} Shift(s: set<nat>)
    ensures |Shifted(s)| == |s|
    decreases |s|
  {
    if s != {} {
      var x :| x in s;
      Shift(s - {x});
      assert Shifted(s) == Shifted(s - {x}) + {x + 1} by {
        assert forall k: nat :: k in s <==> k in s - {x} || k == x;
        forall y: nat ensures y in Shifted(s) <==> y in Shifted(s - {x}) + {x + 1} {
          InShifted(s, y);
          InShifted(s - {x}, y);
        }
      }
      InShifted(s - {x}, x + 1);
    }
  }

  lemma AcceptsExactly(n: Node)
    ensures Accepts(n) <==>
      match n
      case ArrayNode(standardPrototype, symbols, slots, extras) => PlainArray(standardPrototype, symbols, slots, extras)
      case ObjectNode(plainPrototype, symbols, props) => plainPrototype && !symbols && forall p :: p in props ==> p.value.Data?
  {
    if n.ArrayNode? {
      FilledCounts(n.slots);
      hide Filled, Present;
      assert (forall s :: s in n.slots ==> !s.Accessor?) <==> forall k :: 0 <= k < |n.slots| ==> n.slots[k] != Accessor;
    }
  }

  lemma {:induction false} ChildrenFrom(h: Heap, slots: seq<Slot>, levels: nat, items: seq<Json>)
    requires |items| == |slots| && forall k :: 0 <= k < |slots| ==> TreeSlot(h, slots[k], levels) == Some(items[k])
    ensures TreeChildren(h, slots, levels) == Some(items)
    decreases |slots|
  {
    if slots != [] {
      ChildrenFrom(h, slots[1..], levels, items[1..]);
      assert items == [items[0]] + items[1..];
    } else {
      assert items == [];
    }
  }

  /** A value's unfolding within some levels is the tree it denotes, when that fits. */
  lemma {:induction false} TreeExactly(h: Heap, v: Value, levels: nat, j: Json)
    requires LanguageHeap(h)
    ensures Tree(h, v, levels) == Some(j) <==> Denotes(h, v, j) && Fits(j, levels)
    decreases levels, 1
  {
    if v.VObject? && levels > 0 {
      if h(v.ref).ArrayNode? {
        ArrayExactly(h, v.ref, levels, j);
      } else {
        ObjectExactly(h, v.ref, levels, j);
      }
    }
  }

  lemma {:induction false} SlotExactly(h: Heap, slot: Slot, levels: nat, j: Json)
    requires LanguageHeap(h)
    ensures TreeSlot(h, slot, levels) == Some(j)
       <==> Fits(j, levels) && ((slot == Absent && j == Hole) || (slot.Data? && Denotes(h, slot.value, j)))
    decreases levels, 2
  {
    if slot.Data? {
      TreeExactly(h, slot.value, levels, j);
    }
    hide Denotes, Tree;
  }

  lemma {:induction false} SlotsExactly(h: Heap, slots: seq<Slot>, levels: nat, items: seq<Json>)
    requires LanguageHeap(h) && |items| == |slots|
    ensures TreeChildren(h, slots, levels) == Some(items) <==>
      forall k :: 0 <= k < |slots| ==>
        Fits(items[k], levels) && ((slots[k] == Absent && items[k] == Hole) || (slots[k].Data? && Denotes(h, slots[k].value, items[k])))
    decreases levels, 3
  {
    hide Denotes, Fits, TreeSlot;
    forall k | 0 <= k < |slots|
      ensures TreeSlot(h, slots[k], levels) == Some(items[k]) <==>
        Fits(items[k], levels) && ((slots[k] == Absent && items[k] == Hole) || (slots[k].Data? && Denotes(h, slots[k].value, items[k])))
    {
      SlotExactly(h, slots[k], levels, items[k]);
    }
    if TreeChildren(h, slots, levels) == Some(items) {
      forall k | 0 <= k < |slots| ensures TreeSlot(h, slots[k], levels) == Some(items[k]) {
        TreeChildAt(h, slots, levels, k);
      }
    }
    if forall k :: 0 <= k < |slots| ==> TreeSlot(h, slots[k], levels) == Some(items[k]) {
      ChildrenFrom(h, slots, levels, items);
    }
  }

  lemma {:induction false} ArrayExactly(h: Heap, r: Ref, levels: nat, j: Json)
    requires LanguageHeap(h) && levels > 0 && h(r).ArrayNode?
    ensures Tree(h, VObject(r), levels) == Some(j) <==> Denotes(h, VObject(r), j) && Fits(j, levels)
    decreases levels, 0
  {
    var n := h(r);
    AcceptsExactly(n);
    hide PlainArray, Accepts;
    if j.Arr? && |j.items| == |n.slots| {
      SlotsExactly(h, n.slots, levels - 1, j.items);
    }
  }

  lemma KeyInBoth(props: seq<Prop>, fields: seq<Field>, sorted: seq<Prop>, t: Text)
    requires forall p :: p in sorted <==> p in props
    requires forall p :: p in props ==> HasField(fields, p.key)
    requires forall k :: 0 <= k < |fields| ==> HasKey(props, fields[k].key)
    ensures t in Keys(sorted) <==> HasField(fields, t)
  {
    if HasField(fields, t) {
      var k :| 0 <= k < |fields| && fields[k].key == t;
      var p :| p in props && p.key == fields[k].key;
      var i :| 0 <= i < |sorted| && sorted[i] == p;
      assert Keys(sorted)[i] == t;
    }
    if t in Keys(sorted) {
      var i :| 0 <= i < |sorted| && Keys(sorted)[i] == t;
      assert sorted[i] in props;
    }
  }

  /** The fields of a tree stand in the order of the sorted properties. */
  lemma FieldsInOrder(props: seq<Prop>, fields: seq<Field>)
    requires Distinct(Keys(props)) && Rising(fields)
    requires forall p :: p in props ==> HasField(fields, p.key)
    requires forall k :: 0 <= k < |fields| ==> HasKey(props, fields[k].key)
    ensures |fields| == |props| == |SortByKey(props)|
    ensures forall k :: 0 <= k < |fields| ==> fields[k].key == SortByKey(props)[k].key
  {
    hide SortByKey, NotAfter, Leq, HasKey, HasField, Distinct, Ordered, Rising;
    var sorted := SortByKey(props);
    var names := FieldNames(fields);
    SortIsOrdered(props);
    SortDistinct(props);
    SortedIsPermutation(props);
    NamesRise(fields);
    forall t ensures t in names <==> t in Keys(sorted) {
      KeyInBoth(props, fields, sorted, t);
      NameOfField(fields, t);
    }
    SortedKeysUnique(names, Keys(sorted));
    assert |multiset(sorted)| == |multiset(props)|;
    assert forall k :: 0 <= k < |fields| ==> fields[k].key == names[k] == Keys(sorted)[k];
  }

  lemma NameOfField(fields: seq<Field>, t: Text)
    ensures t in FieldNames(fields) <==> HasField(fields, t)
  {
    if t in FieldNames(fields) {
      var k :| 0 <= k < |fields| && FieldNames(fields)[k] == t;
      assert fields[k].key == t;
    }
    if HasField(fields, t) {
      var k :| 0 <= k < |fields| && fields[k].key == t;
      assert FieldNames(fields)[k] == t;
    }
  }

  lemma NamesRise(fields: seq<Field>)
    requires Rising(fields)
    ensures Ordered(FieldNames(fields)) && Distinct(FieldNames(fields))
  {
    OrderedIsAscending(FieldNames(fields));
    hide NotAfter, Leq;
  }

  lemma KeyNamesOne(props: seq<Prop>, p: Prop, q: Prop)
    requires Distinct(Keys(props)) && p in props && q in props && p.key == q.key
    ensures p == q
  {
    var i :| 0 <= i < |props| && props[i] == p;
    var j :| 0 <= j < |props| && props[j] == q;
    assert Keys(props)[i] == Keys(props)[j];
  }

  lemma {:induction false} ObjectExactly(h: Heap, r: Ref, levels: nat, j: Json)
    requires LanguageHeap(h) && levels > 0 && h(r).ObjectNode?
    ensures Tree(h, VObject(r), levels) == Some(j) <==> Denotes(h, VObject(r), j) && Fits(j, levels)
    decreases levels, 0
  {
    AcceptsExactly(h(r));
    if j.Obj? {
      FieldsExactly(h, r, levels, j.fields);
    }
  }

  lemma {:induction false} FieldsExactly(h: Heap, r: Ref, levels: nat, fields: seq<Field>)
    requires LanguageHeap(h) && levels > 0 && h(r).ObjectNode?
    ensures var n := h(r);
            (Accepts(n) && TreeChildren(h, Children(n), levels - 1).Some?
             && fields == Zip(Keys(SortByKey(n.props)), TreeChildren(h, Children(n), levels - 1).value))
            <==> n.plainPrototype && !n.symbols && FieldsDenote(h, n.props, fields)
                 && forall k :: 0 <= k < |fields| ==> Fits(fields[k].value, levels - 1)
    decreases levels - 1, 5
  {
    var n := h(r);
    if Accepts(n) && TreeChildren(h, Children(n), levels - 1).Some?
       && fields == Zip(Keys(SortByKey(n.props)), TreeChildren(h, Children(n), levels - 1).value) {
      FieldsOfTree(h, n.props, levels - 1, fields);
    }
    if n.plainPrototype && !n.symbols && FieldsDenote(h, n.props, fields)
       && forall k :: 0 <= k < |fields| ==> Fits(fields[k].value, levels - 1) {
      TreeOfFields(h, n.props, levels - 1, fields);
    }
  }

  function Values(props: seq<Prop>): seq<Slot> {
    seq(|props|, i requires 0 <= i < |props| => props[i].value)
  }

  lemma {:induction false} FieldsOfTree(h: Heap, props: seq<Prop>, levels: nat, fields: seq<Field>)
    requires LanguageHeap(h) && Distinct(Keys(props)) && forall p :: p in props ==> p.value.Data?
    requires TreeChildren(h, Values(SortByKey(props)), levels).Some?
    requires fields == Zip(Keys(SortByKey(props)), TreeChildren(h, Values(SortByKey(props)), levels).value)
    ensures FieldsDenote(h, props, fields)
    ensures forall k :: 0 <= k < |fields| ==> Fits(fields[k].value, levels)
    decreases levels, 4
  {
    hide Denotes, Fits, TreeChildren, SortByKey, Rising, Distinct, LanguageHeap;
    var sorted := SortByKey(props);
    var items := TreeChildren(h, Values(sorted), levels).value;
    SlotsExactly(h, Values(sorted), levels, items);
    SortedIsPermutation(props);
    RisingWhenSorted(props, fields);
    FieldsHeld(h, props, sorted, fields);
    forall k | 0 <= k < |fields| ensures Fits(fields[k].value, levels) {
      assert fields[k].value == items[k];
    }
  }

  lemma FieldsHeld(h: Heap, props: seq<Prop>, sorted: seq<Prop>, fields: seq<Field>)
    requires |fields| == |sorted| && (forall p :: p in sorted <==> p in props) && forall p :: p in props ==> p.value.Data?
    requires forall k :: 0 <= k < |fields| ==> fields[k].key == sorted[k].key && Denotes(h, sorted[k].value.value, fields[k].value)
    requires Rising(fields)
    ensures FieldsDenote(h, props, fields)
  {
    hide Denotes, Rising;
    forall k | 0 <= k < |fields| ensures HoldsField(h, props, fields[k]) {
      assert sorted[k] in sorted;
    }
    forall p | p in props ensures HasField(fields, p.key) {
      var i :| 0 <= i < |sorted| && sorted[i] == p;
      assert fields[i].key == p.key;
    }
  }

  lemma RisingWhenSorted(props: seq<Prop>, fields: seq<Field>)
    requires Distinct(Keys(props)) && |fields| == |SortByKey(props)|
    requires forall k :: 0 <= k < |fields| ==> fields[k].key == Keys(SortByKey(props))[k]
    ensures Rising(fields)
  {
    SortIsOrdered(props);
    SortDistinct(props);
    OrderedIsAscending(Keys(SortByKey(props)));
    hide NotAfter, SortByKey;
  }

  lemma {:induction false} TreeOfFields(h: Heap, props: seq<Prop>, levels: nat, fields: seq<Field>)
    requires LanguageHeap(h) && Distinct(Keys(props)) && FieldsDenote(h, props, fields)
    requires forall k :: 0 <= k < |fields| ==> Fits(fields[k].value, levels)
    ensures TreeChildren(h, Values(SortByKey(props)), levels).Some?
    ensures fields == Zip(Keys(SortByKey(props)), TreeChildren(h, Values(SortByKey(props)), levels).value)
    decreases levels, 4
  {
    hide Fits, TreeChildren, SortByKey, Denotes, LanguageHeap;
    var sorted := SortByKey(props);
    var items := seq(|fields|, k requires 0 <= k < |fields| => fields[k].value);
    ValuesInOrder(h, props, fields);
    hide FieldsDenote, Distinct;
    assert |Values(sorted)| == |items| && forall k :: 0 <= k < |fields| ==> Values(sorted)[k] == sorted[k].value;
    SlotsExactly(h, Values(sorted), levels, items);
    assert Keys(sorted) == FieldNames(fields);
  }

  function FieldNames(fields: seq<Field>): seq<Text> {
    seq(|fields|, k requires 0 <= k < |fields| => fields[k].key)
  }

  lemma ValuesInOrder(h: Heap, props: seq<Prop>, fields: seq<Field>)
    requires Distinct(Keys(props)) && FieldsDenote(h, props, fields)
    ensures |SortByKey(props)| == |fields|
    ensures forall k :: 0 <= k < |fields| ==> StandsAt(h, SortByKey(props)[k], fields[k])
  {
    hide SortByKey, Denotes, Distinct, Rising;
    forall k | 0 <= k < |fields| ensures HasKey(props, fields[k].key) {
      assert HoldsField(h, props, fields[k]);
    }
    FieldsInOrder(props, fields);
    SortedIsPermutation(props);
    forall k | 0 <= k < |fields| ensures StandsAt(h, SortByKey(props)[k], fields[k]) {
      var q := SortByKey(props)[k];
      assert q in SortByKey(props);
      assert HoldsField(h, props, fields[k]);
      FieldOfKey(h, props, q, fields[k]);
    }
  }

  ghost predicate StandsAt(h: Heap, p: Prop, f: Field) {
    p.key == f.key && p.value.Data? && Denotes(h, p.value.value, f.value)
  }

  lemma FieldOfKey(h: Heap, props: seq<Prop>, q: Prop, f: Field)
    requires Distinct(Keys(props)) && HoldsField(h, props, f) && q in props && q.key == f.key
    ensures StandsAt(h, q, f)
  {
    var p :| p in props && p.key == f.key && p.value.Data? && Denotes(h, p.value.value, f.value);
    KeyNamesOne(props, p, q);
  }

  // ----- the canonical text

  /**
   * A value has a canonical text exactly when it stands for a JSON tree of at
   * most 32 nested levels below the top, and the text is that tree's.
   */
  lemma CanonicalExactly(h: Heap, v: Value, t: Text)
    requires LanguageHeap(h)
    ensures Inner(h, v, {}, 0) == Ok(t) <==> exists j :: Denotes(h, v, j) && Fits(j, 33) && t == Print(j)
  {
    SucceedsExactlyOnTrees(h, v);
    hide Inner, Tree, Denotes, Print, Fits;
    if Inner(h, v, {}, 0).Ok? {
      var j := Tree(h, v, MAX_DEPTH + 1).value;
      TreeExactly(h, v, 33, j);
    }
    if j :| Denotes(h, v, j) && Fits(j, 33) && t == Print(j) {
      TreeExactly(h, v, 33, j);
    }
  }

  // ----- the spelling

  lemma Signs()
    ensures Letters("[") == [LBRACKET] && Letters("]") == [RBRACKET] && Letters(",") == [COMMA]
    ensures Letters("{") == [LBRACE] && Letters("}") == [RBRACE] && Letters(":") == [COLON] && Letters("\"") == [QUOTE]
  {
  }

  lemma WordsAreSpelled()
    ensures Print(Null) == Letters("null") && Print(Bool(true)) == Letters("true") && Print(Bool(false)) == Letters("false")
    ensures Print(Arr([])) == Letters("[]") && Print(Obj([])) == Letters("{}")
  {
    assert NULL == Letters("null") && TRUE == Letters("true") && FALSE == Letters("false");
  }

  /** An array is its items between brackets, with commas and no white space. */
  lemma ArrayIsSpelled(a: Json, b: Json)
    ensures Print(Arr([a, b])) == Letters("[") + Print(a) + Letters(",") + Print(b) + Letters("]")
  {
    var items := [a, b];
    assert items[1..] == [b];
    assert PrintItems(items) == Print(a) + [COMMA] + Print(b);
    Signs();
    hide Print, Letters;
    assert [LBRACKET] + (Print(a) + [COMMA] + Print(b)) + [RBRACKET]
        == [LBRACKET] + Print(a) + [COMMA] + Print(b) + [RBRACKET];
  }

  /** An object is its fields between braces, each the quoted key, a colon and the value. */
  lemma ObjectIsSpelled(f: Field, g: Field)
    ensures Print(Obj([f, g]))
         == Letters("{") + Print(Str(f.key)) + Letters(":") + Print(f.value) + Letters(",")
            + Print(Str(g.key)) + Letters(":") + Print(g.value) + Letters("}")
  {
    var fields := [f, g];
    assert fields[1..] == [g];
    var first, second := Print(Str(f.key)), Print(Str(g.key));
    var p, q := Print(f.value), Print(g.value);
    assert PrintFields(fields) == first + ([COLON] + p) + [COMMA] + (second + ([COLON] + q));
    Signs();
    hide Print, Letters;
    RegroupFields(first, p, second, q);
  }

  lemma RegroupFields(first: Text, p: Text, second: Text, q: Text)
    ensures [LBRACE] + (first + ([COLON] + p) + [COMMA] + (second + ([COLON] + q))) + [RBRACE]
         == [LBRACE] + first + [COLON] + p + [COMMA] + second + [COLON] + q + [RBRACE]
  {
  }

  /** Keys come out in the order of their units, whatever order they were added in. */
  lemma KeysInUnitOrder(h: Heap, c: CodeUnit, d: CodeUnit)
    requires 0x5d <= c < d < 0xd800
    requires h(0) == ObjectNode(true, false, [Keyed([d], Data(VNull)), Keyed([c], Data(VBool(true)))])
    ensures Inner(h, VObject(0), {}, 0)
         == Ok(Letters("{") + [0x22, c, 0x22] + Letters(":") + Letters("true") + Letters(",")
               + [0x22, d, 0x22] + Letters(":") + Letters("null") + Letters("}"))
  {
    var f, g := Field([c], Bool(true)), Field([d], Null);
    TreeOfTwo(h, c, d);
    SucceedsExactlyOnTrees(h, VObject(0));
    hide Inner, Tree, Print, Letters;
    ObjectIsSpelled(f, g);
    WordsAreSpelled();
    QuoteOne(c);
    QuoteOne(d);
  }

  lemma QuoteOne(c: CodeUnit)
    requires 0x5d <= c < 0xd800
    ensures Print(Str([c])) == [QUOTE, c, QUOTE]
  {
    var t: Text := [c];
    assert t[1..] == [];
    assert QuoteBody(t) == [c] + QuoteBody([]);
  }

  lemma TreeOfTwo(h: Heap, c: CodeUnit, d: CodeUnit)
    requires c < d
    requires h(0) == ObjectNode(true, false, [Keyed([d], Data(VNull)), Keyed([c], Data(VBool(true)))])
    ensures Tree(h, VObject(0), 33) == Some(Obj([Field([c], Bool(true)), Field([d], Null)]))
  {
    var props: seq<Prop> := [Keyed([d], Data(VNull)), Keyed([c], Data(VBool(true)))];
    assert props[1..] == [props[1]] && SortByKey([props[1]]) == [props[1]];
    assert Insert(props[0], [props[1]]) == [props[1]] + Insert(props[0], []);
    assert SortByKey(props) == [props[1], props[0]];
    hide SortByKey, Leq;
    var slots := Children(h(0));
    assert slots == [Data(VBool(true)), Data(VNull)];
    ChildrenFrom(h, slots, 32, [Bool(true), Null]);
    assert Zip(Keys([props[1], props[0]]), [Bool(true), Null]) == [Field([c], Bool(true)), Field([d], Null)];
  }

  /**
   * Of all well-formed texts that read as a unit inside a string, the printed
   * one is the shortest.
   */
  lemma EscapeIsShortest(u: CodeUnit, t: Text)
    requires WellFormed(t) && ReadUnit(t) == Some(Parsed(u, []))
    ensures t == EscapeUnit(u) || |EscapeUnit(u)| < |t|
  {
    if t[0] != BACKSLASH {
      assert t[1..] == [];
      assert t == [u];
    } else if t[1] != 0x75 {
      assert t[2..] == [];
      ShortEscapeIsPrinted(u, t[1]);
      assert t == [BACKSLASH, t[1]];
    } else {
      HexEscapeIsPrinted(u, t);
      hide UnicodeEscape, ReadUnit;
    }
  }

  lemma ShortEscapeIsPrinted(u: CodeUnit, c: CodeUnit)
    requires Unescape(c) == Some(u)
    ensures EscapeUnit(u) == [BACKSLASH, c]
  {
  }

  lemma HexEscapeIsPrinted(u: CodeUnit, t: Text)
    requires ReadUnit(t) == Some(Parsed(u, [])) && t[0] == BACKSLASH && t[1] == 0x75
    ensures t == UnicodeEscape(u)
  {
    assert t[6..] == [];
    var a, b, c, d := HexValue(t[2]).value, HexValue(t[3]).value, HexValue(t[4]).value, HexValue(t[5]).value;
    DigitsOfSum(a, b, c, d);
    assert t == [BACKSLASH, 0x75, HexDigit(a), HexDigit(b), HexDigit(c), HexDigit(d)];
  }

  lemma DigitsOfSum(a: int, b: int, c: int, d: int)
    requires 0 <= a < 16 && 0 <= b < 16 && 0 <= c < 16 && 0 <= d < 16
    ensures var u := 0x1000 * a + 0x100 * b + 16 * c + d;
            u / 0x1000 == a && u / 0x100 % 16 == b && u / 16 % 16 == c && u % 16 == d
  {
    var u := 0x1000 * a + 0x100 * b + 16 * c + d;
    assert u == 16 * (0x100 * a + 0x10 * b + c) + d;
    assert u / 16 == 0x100 * a + 0x10 * b + c;
    assert u == 0x100 * (0x10 * a + b) + (16 * c + d);
    assert u / 0x100 == 0x10 * a + b;
  }

  /** Text without controls, quotes and backslashes is printed as it is, surrogate pairs included. */
  lemma {:induction false} PlainTextUnchanged(s: Text)
    requires WellFormed(s) && forall u :: u in s ==> u >= 0x20 && u != 0x22 && u != 0x5c
    ensures QuoteBody(s) == s
    decreases |s|
  {
    if s != [] {
      var n := if IsHigh(s[0]) then 2 else 1;
      assert s[0] in s && s == s[..n] + s[n..];
      assert forall u :: u in s[n..] ==> u in s;
      PlainTextUnchanged(s[n..]);
      assert n == 1 ==> s[..n] == [s[0]];
    }
  }

  /** Of two surrogates only a high one followed by a low one is printed as it is; any other is escaped. */
  lemma SurrogatesPrinted(a: CodeUnit, b: CodeUnit)
    requires 0xd800 <= a < 0xe000 && 0xd800 <= b < 0xe000
    ensures QuoteBody([a, b]) == if a < 0xdc00 <= b then [a, b] else UnicodeEscape(a) + UnicodeEscape(b)
  {
    var s: Text := [a, b];
    assert s[1..] == [b] && s[2..] == [] && [b][1..] == [] && s[..2] == s;
    assert QuoteBody([]) == [];
    hide UnicodeEscape;
    if a < 0xdc00 <= b {
      assert StartsWithPair(s);
    } else {
      assert QuoteBody([b]) == UnicodeEscape(b) + [];
    }
  }
}
