/** Advisor contexts as values, bounding them, and the references they hold. */
module ContextValues {
  import opened Wrappers
  import opened Utf16Text
  import opened TextClean

  /** Property names; only two of them mean anything to reference collection. */
  datatype Field = Ref | SourceRefs | Other(name: string)

  /** Missing stands for undefined. */
  datatype Value =
    | Missing
    | Null
    | Number(n: int)
    | Bool(b: bool)
    | Str(s: Text)
    | Arr(items: seq<Value>)
    | Obj(props: seq<Prop>)

  datatype Prop = Prop(key: Field, value: Value)

  datatype Limits = Limits(depth: nat, arrayLimit: nat, keyLimit: nat, stringLimit: nat)

  function Spelling(f: Field): string {
    match f
    case Ref => "ref"
    case SourceRefs => "sourceRefs"
    case Other(name) => name
  }

  predicate SpelledBefore(a: string, b: string) {
    if a == "" then true
    else if b == "" then false
    else if a[0] != b[0] then a[0] < b[0]
    else SpelledBefore(a[1..], b[1..])
  }

  function InsertProp(p: Prop, props: seq<Prop>): seq<Prop> {
    if props == [] || SpelledBefore(Spelling(p.key), Spelling(props[0].key)) then [p] + props
    else [props[0]] + InsertProp(p, props[1..])
  }

  /** `Object.keys(value).sort()`, with the values. */
  function SortProps(props: seq<Prop>): seq<Prop> {
    if props == [] then [] else InsertProp(props[|props| - 1], SortProps(props[..|props| - 1]))
  }

  function Take<T>(s: seq<T>, n: nat): seq<T> {
    if |s| <= n then s else s[..n]
  }

  predicate Scalar(v: Value) { v.Missing? || v.Null? || v.Number? || v.Bool? }

  /** One property of an object at the depth limit: scalars and cut strings, nothing nested. */
  function Shallow(props: seq<Prop>, stringLimit: nat): seq<Prop> {
    if props == [] then []
    else
      var (rest, last) := (Shallow(props[..|props| - 1], stringLimit), props[|props| - 1]);
      if Scalar(last.value) then rest + [last]
      else if last.value.Str? then rest + [Prop(last.key, Str(Clean(last.value.s, stringLimit)))]
      else rest
  }

  function Max(a: nat, b: nat): nat { if a < b then b else a }

  /** The value with depth, lengths and widths cut to the limits. */
  function Bounded(v: Value, limits: Limits, level: nat): Value
    decreases if level < limits.depth then limits.depth - level else 0, 0
  {
    match v
    case Str(s) => Str(Clean(s, limits.stringLimit))
    case Arr(items) =>
      if level >= limits.depth then Arr([]) else Arr(BoundedItems(Take(items, limits.arrayLimit), limits, level + 1))
    case Obj(props) =>
      var kept := Take(SortProps(props), limits.keyLimit);
      if level >= limits.depth then Obj(Shallow(kept, limits.stringLimit)) else Obj(BoundedProps(kept, limits, level + 1))
    case _ => v
  }

  function BoundedItems(items: seq<Value>, limits: Limits, level: nat): (r: seq<Value>)
    ensures |r| == |items|
    decreases if level < limits.depth then limits.depth - level else 0, 1, |items|
  {
    if items == [] then []
    else BoundedItems(items[..|items| - 1], limits, level) + [Bounded(items[|items| - 1], limits, level)]
  }

  function BoundedProps(props: seq<Prop>, limits: Limits, level: nat): (r: seq<Prop>)
    ensures |r| == |props|
    decreases if level < limits.depth then limits.depth - level else 0, 1, |props|
  {
    if props == [] then []
    else
      var last := props[|props| - 1];
      BoundedProps(props[..|props| - 1], limits, level) + [Prop(last.key, Bounded(last.value, limits, level))]
  }

  /** The flat object at the depth limit, key by key. */
  method BuildShallow(kept: seq<Prop>, stringLimit: nat) returns (out: seq<Prop>)
    ensures out == Shallow(kept, stringLimit)
  {
    out := [];
    for i := 0 to |kept|
      invariant out == Shallow(kept[..i], stringLimit)
    {
      assert kept[..i + 1][..i] == kept[..i];
      if Scalar(kept[i].value) {
        out := out + [kept[i]];
      } else if kept[i].value.Str? {
        out := out + [Prop(kept[i].key, Str(Clean(kept[i].value.s, stringLimit)))];
      }
    }
    assert kept[..|kept|] == kept;
  }

  /** Builds the bounded value item by item and key by key. */
  method BuildBounded(v: Value, limits: Limits, level: nat) returns (bounded: Value)
    ensures bounded == Bounded(v, limits, level)
    decreases if level < limits.depth then limits.depth - level else 0
  {
    match v {
      case Str(s) => bounded := Str(Clean(s, limits.stringLimit));
      case Arr(items) =>
        if level >= limits.depth {
          return Arr([]);
        }
        var kept, out := Take(items, limits.arrayLimit), [];
        for i := 0 to |kept|
          invariant out == BoundedItems(kept[..i], limits, level + 1)
        {
          assert kept[..i + 1][..i] == kept[..i];
          var item := BuildBounded(kept[i], limits, level + 1);
          out := out + [item];
        }
        assert kept[..|kept|] == kept;
        bounded := Arr(out);
      case Obj(props) =>
        var kept, out := Take(SortProps(props), limits.keyLimit), [];
        if level >= limits.depth {
          out := BuildShallow(kept, limits.stringLimit);
          return Obj(out);
        }
        for i := 0 to |kept|
          invariant out == BoundedProps(kept[..i], limits, level + 1)
        {
          assert kept[..i + 1][..i] == kept[..i];
          var value := BuildBounded(kept[i].value, limits, level + 1);
          out := out + [Prop(kept[i].key, value)];
        }
        assert kept[..|kept|] == kept;
        bounded := Obj(out);
      case _ => bounded := v;
    }
  }

  // ----- size of a bounded value

  function Nodes(v: Value): nat {
    match v
    case Arr(items) => 1 + ItemsNodes(items)
    case Obj(props) => 1 + PropsNodes(props)
    case _ => 1
  }

  function ItemsNodes(items: seq<Value>): nat {
    if items == [] then 0 else ItemsNodes(items[..|items| - 1]) + Nodes(items[|items| - 1])
  }

  function PropsNodes(props: seq<Prop>): nat {
    if props == [] then 0 else PropsNodes(props[..|props| - 1]) + PropNodes(props[|props| - 1])
  }

  function PropNodes(p: Prop): nat { Nodes(p.value) }

  /** The closed-form bound: a flat object at the depth limit, and the wider of the two widths at every level above it. */
  function NodeBound(limits: Limits, level: nat): nat
    decreases if level < limits.depth then limits.depth - level else 0
  {
    if level >= limits.depth then 1 + limits.keyLimit
    else 1 + Max(limits.arrayLimit, limits.keyLimit) * NodeBound(limits, level + 1)
  }

  lemma {:induction false} SortKeepsCount(props: seq<Prop>)
    ensures multiset(SortProps(props)) == multiset(props) && |SortProps(props)| == |props|
    decreases |props|
  {
    if props != [] {
      SortKeepsCount(props[..|props| - 1]);
      InsertKeepsCount(props[|props| - 1], SortProps(props[..|props| - 1]));
      assert props == props[..|props| - 1] + [props[|props| - 1]];
    }
  }

  lemma {:induction false} InsertKeepsCount(p: Prop, props: seq<Prop>)
    ensures multiset(InsertProp(p, props)) == multiset(props) + multiset{p} && |InsertProp(p, props)| == |props| + 1
    decreases |props|
  {
    if props != [] {
      assert props == [props[0]] + props[1..];
      InsertKeepsCount(p, props[1..]);
    }
  }

  lemma {:induction false} ShallowNodes(props: seq<Prop>, stringLimit: nat)
    ensures PropsNodes(Shallow(props, stringLimit)) <= |props|
    decreases |props|
  {
    if props != [] {
      var (rest, last) := (Shallow(props[..|props| - 1], stringLimit), props[|props| - 1]);
      ShallowNodes(props[..|props| - 1], stringLimit);
      PropsNodesAppend(rest, last);
      if last.value.Str? {
        PropsNodesAppend(rest, Prop(last.key, Str(Clean(last.value.s, stringLimit))));
      }
    }
  }

  lemma PropsNodesAppend(props: seq<Prop>, p: Prop)
    ensures PropsNodes(props + [p]) == PropsNodes(props) + Nodes(p.value)
  {
    assert (props + [p])[..|props|] == props;
  }

  lemma ItemsNodesAppend(items: seq<Value>, v: Value)
    ensures ItemsNodes(items + [v]) == ItemsNodes(items) + Nodes(v)
  {
    assert (items + [v])[..|items|] == items;
  }

  lemma LevelBound(limits: Limits, level: nat, n: nat, nodes: nat)
    requires level < limits.depth && (n <= limits.arrayLimit || n <= limits.keyLimit)
    requires nodes <= n * NodeBound(limits, level + 1)
    ensures 1 + nodes <= NodeBound(limits, level)
  {
    Widen(n, Max(limits.arrayLimit, limits.keyLimit), NodeBound(limits, level + 1));
  }

  /** A bounded value has no more nodes than the closed form allows, whatever the input. */
  lemma {:induction false} BoundedNodes(v: Value, limits: Limits, level: nat)
    ensures Nodes(Bounded(v, limits, level)) <= NodeBound(limits, level)
    decreases if level < limits.depth then limits.depth - level else 0, 0
  {
    match v
    case Arr(items) =>
      if level < limits.depth {
        var kept := Take(items, limits.arrayLimit);
        BoundedItemsNodes(kept, limits, level + 1);
        hide BoundedItems, ItemsNodes, NodeBound;
        LevelBound(limits, level, |kept|, ItemsNodes(BoundedItems(kept, limits, level + 1)));
      }
    case Obj(props) =>
      var kept := Take(SortProps(props), limits.keyLimit);
      hide SortProps, Shallow, BoundedProps, PropsNodes;
      if level < limits.depth {
        BoundedPropsNodes(kept, limits, level + 1);
        hide NodeBound;
        LevelBound(limits, level, |kept|, PropsNodes(BoundedProps(kept, limits, level + 1)));
      } else {
        ShallowNodes(kept, limits.stringLimit);
      }
    case _ => SomeNode(limits, level);
  }

  lemma SomeNode(limits: Limits, level: nat)
    ensures NodeBound(limits, level) >= 1
  {
    if level < limits.depth {
      Widen(0, Max(limits.arrayLimit, limits.keyLimit), NodeBound(limits, level + 1));
    }
  }

  lemma Widen(n: nat, m: nat, bound: nat)
    requires n <= m
    ensures n * bound <= m * bound
  {
    assert (m - n) * bound >= 0;
  }

  lemma {:induction false} BoundedItemsNodes(items: seq<Value>, limits: Limits, level: nat)
    ensures ItemsNodes(BoundedItems(items, limits, level)) <= |items| * NodeBound(limits, level)
    decreases if level < limits.depth then limits.depth - level else 0, 1, |items|
  {
    if items != [] {
      var (front, last) := (items[..|items| - 1], items[|items| - 1]);
      BoundedItemsNodes(front, limits, level);
      BoundedNodes(last, limits, level);
      ItemsNodesAppend(BoundedItems(front, limits, level), Bounded(last, limits, level));
      hide NodeBound, Bounded, ItemsNodes;
      OneMore(|front|, NodeBound(limits, level));
    }
  }

  lemma OneMore(n: nat, bound: nat)
    ensures (n + 1) * bound == n * bound + bound
  {
  }

  lemma {:induction false} BoundedPropsNodes(props: seq<Prop>, limits: Limits, level: nat)
    ensures PropsNodes(BoundedProps(props, limits, level)) <= |props| * NodeBound(limits, level)
    decreases if level < limits.depth then limits.depth - level else 0, 1, |props|
  {
    if props != [] {
      var (front, last) := (props[..|props| - 1], props[|props| - 1]);
      BoundedPropsNodes(front, limits, level);
      BoundedNodes(last.value, limits, level);
      PropsNodesAppend(BoundedProps(front, limits, level), Prop(last.key, Bounded(last.value, limits, level)));
      hide NodeBound, Bounded, PropsNodes;
      OneMore(|front|, NodeBound(limits, level));
    }
  }

  // ----- references

  function Trim(s: Text): Text { TrimEnd(TrimStart(s)) }

  /** The references a property adds by its own name. */
  function OwnRefs(p: Prop): set<Text> {
    if p.key == Ref && p.value.Str? && Trim(p.value.s) != [] then {Trim(p.value.s)}
    else if p.key == SourceRefs && p.value.Arr? then ListedRefs(p.value.items)
    else {}
  }

  function ListedRefs(items: seq<Value>): set<Text> {
    set v | v in items && v.Str? && Trim(v.s) != [] :: Trim(v.s)
  }

  function Refs(v: Value): set<Text> {
    match v
    case Arr(items) => ItemsRefs(items)
    case Obj(props) => PropsRefs(props)
    case _ => {}
  }

  function ItemsRefs(items: seq<Value>): set<Text> {
    if items == [] then {} else ItemsRefs(items[..|items| - 1]) + Refs(items[|items| - 1])
  }

  function PropsRefs(props: seq<Prop>): set<Text> {
    if props == [] then {}
    else PropsRefs(props[..|props| - 1]) + PropRefs(props[|props| - 1])
  }

  function PropRefs(p: Prop): set<Text> { OwnRefs(p) + Refs(p.value) }

  /** Collects into the set it is given, object by object. */
  method CollectRefs(v: Value, before: set<Text>) returns (out: set<Text>)
    ensures out == before + Refs(v)
    decreases v
  {
    out := before;
    match v {
      case Arr(items) =>
        for i := 0 to |items|
          invariant out == before + ItemsRefs(items[..i])
        {
          assert items[..i + 1][..i] == items[..i];
          out := CollectRefs(items[i], out);
        }
        assert items[..|items|] == items;
      case Obj(props) =>
        out := CollectOwn(props, before);
        for i := 0 to |props|
          invariant out == before + AllOwn(props) + ValuesRefs(props[..i])
        {
          assert props[..i + 1][..i] == props[..i];
          out := CollectRefs(props[i].value, out);
        }
        assert props[..|props|] == props;
        PropsRefsSplit(props);
      case _ =>
    }
  }

  function AllOwn(props: seq<Prop>): set<Text> {
    if props == [] then {} else AllOwn(props[..|props| - 1]) + OwnRefs(props[|props| - 1])
  }

  function ValuesRefs(props: seq<Prop>): set<Text> {
    if props == [] then {} else ValuesRefs(props[..|props| - 1]) + Refs(props[|props| - 1].value)
  }

  lemma {:induction false} PropsRefsSplit(props: seq<Prop>)
    ensures PropsRefs(props) == AllOwn(props) + ValuesRefs(props)
    decreases |props|
  {
    if props != [] {
      PropsRefsSplit(props[..|props| - 1]);
    }
  }

  /** An object's own `ref` and `sourceRefs`. */
  method CollectOwn(props: seq<Prop>, before: set<Text>) returns (out: set<Text>)
    ensures out == before + AllOwn(props)
  {
    out := before;
    for i := 0 to |props|
      invariant out == before + AllOwn(props[..i])
    {
      assert props[..i + 1][..i] == props[..i];
      out := out + OwnRefs(props[i]);
    }
    assert props[..|props|] == props;
  }

  // ----- bounding invents no reference

  const REF_LIMIT: nat := 80

  /** A reference that cleaning at any limit in use leaves alone. */
  predicate CleanRef(s: Text) { Clean(s, REF_LIMIT) == s }

  predicate OwnClean(p: Prop) {
    && (p.key == Ref && p.value.Str? ==> CleanRef(p.value.s))
    && (p.key == SourceRefs && p.value.Arr? ==> forall v :: v in p.value.items && v.Str? ==> CleanRef(v.s))
  }

  predicate RefsClean(v: Value) {
    match v
    case Arr(items) => ItemsClean(items)
    case Obj(props) => PropsClean(props)
    case _ => true
  }

  predicate ItemsClean(items: seq<Value>) {
    items == [] || (ItemsClean(items[..|items| - 1]) && RefsClean(items[|items| - 1]))
  }

  predicate PropsClean(props: seq<Prop>) {
    props == [] || (PropsClean(props[..|props| - 1]) && PropClean(props[|props| - 1]))
  }

  predicate PropClean(p: Prop) { OwnClean(p) && RefsClean(p.value) }

  lemma CleanRefStays(s: Text, n: nat)
    requires CleanRef(s) && n >= REF_LIMIT
    ensures Clean(s, n) == s
  {
    CleanIsTidy(s, REF_LIMIT);
    CleanTidy(s, REF_LIMIT);
    CleanTidy(s, n);
    hide Clean;
  }

  /** A property whose references are clean and lie in the set. */
  ghost predicate PropIn(p: Prop, refs: set<Text>) {
    PropRefs(p) <= refs && PropClean(p)
  }

  ghost predicate PropsIn(props: seq<Prop>, refs: set<Text>) {
    forall p :: p in props ==> PropIn(p, refs)
  }

  ghost predicate ItemsIn(items: seq<Value>, refs: set<Text>) {
    forall v :: v in items ==> Refs(v) <= refs && RefsClean(v)
  }

  lemma {:induction false} PropsWithin(props: seq<Prop>, refs: set<Text>)
    ensures PropsIn(props, refs) <==> PropsRefs(props) <= refs && PropsClean(props)
    decreases |props|
  {
    if props != [] {
      var (front, last) := (props[..|props| - 1], props[|props| - 1]);
      PropsWithin(front, refs);
      assert props == front + [last];
      hide PropRefs, PropClean;
      assert PropsIn(props, refs) <==> PropsIn(front, refs) && PropIn(last, refs);
    }
  }

  lemma {:induction false} ItemsWithin(items: seq<Value>, refs: set<Text>)
    ensures ItemsIn(items, refs) <==> ItemsRefs(items) <= refs && ItemsClean(items)
    decreases |items|
  {
    if items != [] {
      ItemsWithin(items[..|items| - 1], refs);
      assert items == items[..|items| - 1] + [items[|items| - 1]];
      hide Refs, RefsClean;
    }
  }

  /** A value whose references are clean and lie in the set. */
  ghost predicate Within(v: Value, refs: set<Text>) {
    Refs(v) <= refs && RefsClean(v)
  }

  lemma ObjWithin(props: seq<Prop>, refs: set<Text>)
    ensures Within(Obj(props), refs) <==> PropsIn(props, refs)
  {
    PropsWithin(props, refs);
  }

  lemma ArrWithin(items: seq<Value>, refs: set<Text>)
    ensures Within(Arr(items), refs) <==> ItemsIn(items, refs)
  {
    ItemsWithin(items, refs);
  }

  lemma KeptPropsIn(props: seq<Prop>, n: nat, refs: set<Text>)
    requires PropsIn(props, refs)
    ensures PropsIn(Take(SortProps(props), n), refs)
  {
    SortKeepsCount(props);
    forall p | p in Take(SortProps(props), n)
      ensures p in props
    {
      assert p in multiset(SortProps(props));
    }
  }

  lemma {:induction false} ShallowIn(props: seq<Prop>, stringLimit: nat, refs: set<Text>)
    requires PropsIn(props, refs) && stringLimit >= REF_LIMIT
    ensures PropsIn(Shallow(props, stringLimit), refs)
    decreases |props|
  {
    if props != [] {
      var (front, last) := (props[..|props| - 1], props[|props| - 1]);
      assert last in props && forall p :: p in front ==> p in props;
      ShallowIn(front, stringLimit, refs);
      if last.value.Str? {
        CutPropIn(last, stringLimit, refs);
      }
      hide PropRefs, PropClean;
    }
  }

  lemma CutPropIn(p: Prop, stringLimit: nat, refs: set<Text>)
    requires p.value.Str? && PropRefs(p) <= refs && PropClean(p) && stringLimit >= REF_LIMIT
    ensures var q := Prop(p.key, Str(Clean(p.value.s, stringLimit))); PropRefs(q) <= refs && PropClean(q)
  {
    if p.key == Ref {
      CleanRefStays(p.value.s, stringLimit);
    }
  }

  lemma {:induction false} BoundedWithin(v: Value, limits: Limits, level: nat, refs: set<Text>)
    requires Within(v, refs) && limits.stringLimit >= REF_LIMIT
    ensures Within(Bounded(v, limits, level), refs)
    decreases if level < limits.depth then limits.depth - level else 0, 0
  {
    match v
    case Arr(items) =>
      if level < limits.depth {
        var kept := Take(items, limits.arrayLimit);
        ArrWithin(items, refs);
        assert forall x :: x in kept ==> x in items;
        BoundedItemsIn(kept, limits, level + 1, refs);
        ArrWithin(BoundedItems(kept, limits, level + 1), refs);
      }
    case Obj(props) =>
      var kept := Take(SortProps(props), limits.keyLimit);
      ObjWithin(props, refs);
      KeptPropsIn(props, limits.keyLimit, refs);
      if level < limits.depth {
        BoundedPropsIn(kept, limits, level + 1, refs);
        ObjWithin(BoundedProps(kept, limits, level + 1), refs);
      } else {
        ShallowIn(kept, limits.stringLimit, refs);
        ObjWithin(Shallow(kept, limits.stringLimit), refs);
      }
    case _ =>
  }

  lemma {:induction false} BoundedItemsIn(items: seq<Value>, limits: Limits, level: nat, refs: set<Text>)
    requires ItemsIn(items, refs) && limits.stringLimit >= REF_LIMIT
    ensures ItemsIn(BoundedItems(items, limits, level), refs)
    decreases if level < limits.depth then limits.depth - level else 0, 1, |items|
  {
    if items != [] {
      var (front, last) := (items[..|items| - 1], items[|items| - 1]);
      assert last in items && forall v :: v in front ==> v in items;
      BoundedItemsIn(front, limits, level, refs);
      BoundedWithin(last, limits, level, refs);
      hide Refs, RefsClean, Bounded;
    }
  }

  lemma {:induction false} BoundedPropsIn(props: seq<Prop>, limits: Limits, level: nat, refs: set<Text>)
    requires PropsIn(props, refs) && limits.stringLimit >= REF_LIMIT
    ensures PropsIn(BoundedProps(props, limits, level), refs)
    decreases if level < limits.depth then limits.depth - level else 0, 1, |props|
  {
    if props != [] {
      var (front, last) := (props[..|props| - 1], props[|props| - 1]);
      assert last in props && forall p :: p in front ==> p in props;
      BoundedPropsIn(front, limits, level, refs);
      BoundedWithin(last.value, limits, level, refs);
      BoundedPropIn(last, limits, level, refs);
      hide PropRefs, PropClean, Bounded;
    }
  }

  /** The property itself keeps its own references: strings at `ref`, and those listed under `sourceRefs`. */
  lemma BoundedPropIn(p: Prop, limits: Limits, level: nat, refs: set<Text>)
    requires PropRefs(p) <= refs && PropClean(p) && limits.stringLimit >= REF_LIMIT
    requires Within(Bounded(p.value, limits, level), refs)
    ensures var q := Prop(p.key, Bounded(p.value, limits, level)); PropRefs(q) <= refs && PropClean(q)
  {
    if p.key == Ref && p.value.Str? {
      CleanRefStays(p.value.s, limits.stringLimit);
    } else if p.key == SourceRefs && p.value.Arr? && level < limits.depth {
      ListedBounded(p.value.items, limits, level + 1);
    }
  }

  /** A bounded list holds a prefix of the listed references, untouched. */
  lemma ListedBounded(items: seq<Value>, limits: Limits, level: nat)
    requires limits.stringLimit >= REF_LIMIT && forall v :: v in items && v.Str? ==> CleanRef(v.s)
    ensures var kept := BoundedItems(Take(items, limits.arrayLimit), limits, level);
            && ListedRefs(kept) <= ListedRefs(items)
            && forall v :: v in kept && v.Str? ==> v in items
  {
    BoundedStrings(Take(items, limits.arrayLimit), limits, level);
  }

  lemma {:induction false} BoundedStrings(items: seq<Value>, limits: Limits, level: nat)
    requires limits.stringLimit >= REF_LIMIT && forall v :: v in items && v.Str? ==> CleanRef(v.s)
    ensures forall v :: v in BoundedItems(items, limits, level) && v.Str? ==> v in items
    decreases |items|
  {
    if items != [] {
      var (front, last) := (items[..|items| - 1], items[|items| - 1]);
      BoundedStrings(front, limits, level);
      if last.Str? {
        CleanRefStays(last.s, limits.stringLimit);
      }
      assert Bounded(last, limits, level).Str? ==> Bounded(last, limits, level) == last;
    }
  }
}
