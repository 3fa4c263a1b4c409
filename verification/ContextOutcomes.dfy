/** What compaction keeps of a context: which keys, rows and texts, and how much of them. */
module ContextOutcomes {
  import opened Wrappers
  import opened Utf16Text
  import opened TextClean
  import opened TextWords
  import opened ContextValues

  // ----- keys in order

  function NameOf(f: Field): string {
    match f
    case Ref => "ref"
    case SourceRefs => "sourceRefs"
    case Other(name) => name
  }

  function Name(p: Prop): string { NameOf(p.key) }

  lemma NameSpells(p: Prop)
    ensures Name(p) == Spelling(p.key)
  {
  }

  /** The first name is the beginning of the second, or smaller where they first differ. */
  predicate Ahead(a: string, b: string) {
    exists k :: 0 <= k <= |a| && AheadAt(a, b, k)
  }

  predicate AheadAt(a: string, b: string, k: nat)
    requires k <= |a|
  {
    k < |b| && (forall i :: 0 <= i < k ==> a[i] == b[i]) && (k == |a| || a[k] < b[k])
  }

  lemma {:induction false} SpelledExactly(a: string, b: string)
    ensures SpelledBefore(a, b) <==> a == b || Ahead(a, b)
    ensures !(Ahead(a, b) && Ahead(b, a)) && !(a == b && Ahead(a, b))
    ensures a == b || Ahead(a, b) || Ahead(b, a)
    decreases |a|
  {
    if a == "" || b == "" {
      assert b != "" ==> AheadAt(a, b, 0);
      assert a != "" ==> AheadAt(b, a, 0);
    } else {
      SpelledExactly(a[1..], b[1..]);
      AheadRest(a, b);
      AheadRest(b, a);
      assert a == [a[0]] + a[1..] && b == [b[0]] + b[1..];
    }
  }

  lemma AheadRest(a: string, b: string)
    requires a != "" && b != ""
    ensures Ahead(a, b) <==> a[0] < b[0] || (a[0] == b[0] && Ahead(a[1..], b[1..]))
  {
    if a[0] < b[0] {
      assert AheadAt(a, b, 0);
    }
    if a[0] == b[0] && Ahead(a[1..], b[1..]) {
      var k :| 0 <= k <= |a[1..]| && AheadAt(a[1..], b[1..], k);
      assert forall i :: 0 < i < k + 1 ==> a[i] == a[1..][i - 1] && b[i] == b[1..][i - 1];
      assert AheadAt(a, b, k + 1);
    }
    if Ahead(a, b) && !(a[0] < b[0]) {
      var k :| 0 <= k <= |a| && AheadAt(a, b, k);
      assert AheadAt(a[1..], b[1..], k - 1);
    }
  }

  lemma {:induction false} AheadTransitive(a: string, b: string, c: string)
    requires Ahead(a, b) && Ahead(b, c)
    ensures Ahead(a, c)
    decreases |a|
  {
    if a == "" {
      assert AheadAt(a, c, 0);
    } else {
      AheadRest(a, b);
      AheadRest(b, c);
      AheadRest(a, c);
      if a[0] == b[0] == c[0] {
        AheadTransitive(a[1..], b[1..], c[1..]);
      }
    }
  }

  predicate DistinctNames(props: seq<Prop>) {
    forall i, j :: 0 <= i < j < |props| ==> Name(props[i]) != Name(props[j])
  }

  predicate Rising(props: seq<Prop>) {
    forall i, j :: 0 <= i < j < |props| ==> Ahead(Name(props[i]), Name(props[j]))
  }

  /** How many properties come before a key. */
  function Rank(props: seq<Prop>, key: string): nat {
    |set p | p in props && Ahead(Name(p), key)|
  }

  lemma {:induction false} InsertRises(p: Prop, props: seq<Prop>)
    requires Rising(props) && forall q :: q in props ==> Name(q) != Name(p)
    ensures Rising(InsertProp(p, props)) && forall q :: q in InsertProp(p, props) <==> q == p || q in props
  {
    NameSpells(p);
    if props != [] {
      NameSpells(props[0]);
    }
    hide NameOf, Spelling;
    if props == [] || SpelledBefore(Name(p), Name(props[0])) {
      forall q | q in props ensures Ahead(Name(p), Name(q)) {
        SpelledExactly(Name(p), Name(props[0]));
        var i :| 0 <= i < |props| && props[i] == q;
        if i > 0 {
          AheadTransitive(Name(p), Name(props[0]), Name(q));
        }
      }
    } else {
      SpelledExactly(Name(p), Name(props[0]));
      InsertRises(p, props[1..]);
      assert props == [props[0]] + props[1..];
      forall q | q in InsertProp(p, props[1..]) ensures Ahead(Name(props[0]), Name(q)) {
        if q != p {
          var i :| 0 <= i < |props[1..]| && props[1..][i] == q;
        }
      }
    }
    hide Ahead, SpelledBefore;
  }

  lemma {:induction false} SortRises(props: seq<Prop>)
    requires DistinctNames(props)
    ensures Rising(SortProps(props)) && forall q :: q in SortProps(props) <==> q in props
    decreases |props|
  {
    if props != [] {
      var n := |props| - 1;
      SortRises(props[..n]);
      hide Ahead;
      assert props == props[..n] + [props[n]];
      forall q | q in SortProps(props[..n]) ensures Name(q) != Name(props[n]) {
        assert q in props[..n];
      }
      InsertRises(props[n], SortProps(props[..n]));
    }
  }

  /** In a rising list exactly the first i come before the i-th. */
  lemma RankOfSorted(props: seq<Prop>, sorted: seq<Prop>, i: nat)
    requires Rising(sorted) && (forall q :: q in sorted <==> q in props) && i < |sorted|
    ensures Rank(props, Name(sorted[i])) == i
  {
    var before := set p | p in props && Ahead(Name(p), Name(sorted[i]));
    var key := Name(sorted[i]);
    forall p ensures p in before <==> p in Firsts(sorted, i) {
      if p in Firsts(sorted, i) {
        var j :| 0 <= j < i && sorted[j] == p;
      }
      if p in before {
        var j :| 0 <= j < |sorted| && sorted[j] == p;
        SpelledExactly(Name(p), key);
        assert j >= i ==> j == i || Ahead(key, Name(sorted[j]));
      }
    }
    assert before == Firsts(sorted, i);
    FirstsCount(sorted, i);
  }

  function Firsts(sorted: seq<Prop>, i: nat): set<Prop>
    requires i <= |sorted|
  {
    set j | 0 <= j < i :: sorted[j]
  }

  lemma NoFirst(sorted: seq<Prop>)
    ensures Firsts(sorted, 0) == {}
  {
  }

  lemma AddOne(a: set<Prop>, p: Prop)
    requires p !in a
    ensures |a + {p}| == |a| + 1
  {
  }

  lemma {:induction false} FirstsCount(sorted: seq<Prop>, i: nat)
    requires Rising(sorted) && i <= |sorted|
    ensures |Firsts(sorted, i)| == i
  {
    hide Firsts, Rising;
    if i > 0 {
      FirstsCount(sorted, i - 1);
      OneMoreFirst(sorted, i);
      NotAmongFirst(sorted, i - 1);
      AddOne(Firsts(sorted, i - 1), sorted[i - 1]);
    } else {
      NoFirst(sorted);
    }
  }

  lemma OneMoreFirst(sorted: seq<Prop>, i: nat)
    requires 0 < i <= |sorted|
    ensures Firsts(sorted, i) == Firsts(sorted, i - 1) + {sorted[i - 1]}
  {
  }

  lemma NotAmongFirst(sorted: seq<Prop>, i: nat)
    requires Rising(sorted) && i < |sorted|
    ensures sorted[i] !in Firsts(sorted, i)
  {
    SpelledExactly(Name(sorted[i]), Name(sorted[i]));
    hide Ahead;
  }

  // ----- a bounded value

  /** An object has one property for each name, at every level. */
  predicate Proper(v: Value) {
    match v
    case Arr(items) => forall k :: 0 <= k < |items| ==> Proper(items[k])
    case Obj(props) => DistinctNames(props) && forall k :: 0 <= k < |props| ==> Proper(props[k].value)
    case _ => true
  }

  predicate Nested(v: Value) { v.Arr? || v.Obj? }

  /**
   * The second value is what bounding may keep of the first: texts cut, the
   * first items of an array and none at the depth limit, and of an object the
   * properties with the first names, in the order of their names, without
   * nested ones at the depth limit.
   */
  ghost predicate CutTo(v: Value, b: Value, limits: Limits, level: nat)
    decreases b
  {
    match v
    case Str(s) => b == Str(Words(s, limits.stringLimit))
    case Arr(items) =>
      && b.Arr? && |b.items| == (if level >= limits.depth then 0 else if |items| <= limits.arrayLimit then |items| else limits.arrayLimit)
      && (forall k :: 0 <= k < |b.items| ==> CutTo(items[k], b.items[k], limits, level + 1))
    case Obj(props) => b.Obj? && KeepsFirst(props, b.props, limits, level)
    case _ => b == v
  }

  ghost predicate KeepsFirst(props: seq<Prop>, kept: seq<Prop>, limits: Limits, level: nat)
    decreases kept
  {
    && Rising(kept)
    && (forall k :: 0 <= k < |kept| ==> Keeps(props, kept[k], limits, level))
    && (forall p :: p in props && Rank(props, Name(p)) < limits.keyLimit && (level < limits.depth || !Nested(p.value)) ==>
          HasKey(kept, p.key))
  }

  predicate HasKey(props: seq<Prop>, key: Field) {
    exists k :: 0 <= k < |props| && props[k].key == key
  }

  ghost predicate Keeps(props: seq<Prop>, q: Prop, limits: Limits, level: nat)
    decreases q
  {
    exists p :: p in props && p.key == q.key && Rank(props, Name(p)) < limits.keyLimit
      && (level < limits.depth || !Nested(p.value)) && CutTo(p.value, q.value, limits, level + 1)
  }

  // ----- bounding keeps that

  lemma {:induction false} BoundedItemAt(items: seq<Value>, limits: Limits, level: nat, k: nat)
    requires k < |items|
    ensures BoundedItems(items, limits, level)[k] == Bounded(items[k], limits, level)
    decreases |items|
  {
    if k < |items| - 1 {
      BoundedItemAt(items[..|items| - 1], limits, level, k);
    }
  }

  lemma {:induction false} BoundedPropAt(props: seq<Prop>, limits: Limits, level: nat, k: nat)
    requires k < |props|
    ensures BoundedProps(props, limits, level)[k] == Prop(props[k].key, Bounded(props[k].value, limits, level))
    decreases |props|
  {
    if k < |props| - 1 {
      BoundedPropAt(props[..|props| - 1], limits, level, k);
    }
  }

  function ShallowProp(p: Prop, stringLimit: nat): Prop {
    if p.value.Str? then Prop(p.key, Str(Clean(p.value.s, stringLimit))) else p
  }

  lemma {:induction false} ShallowMembers(props: seq<Prop>, stringLimit: nat, q: Prop)
    ensures q in Shallow(props, stringLimit) <==> ShallowFrom(props, q, stringLimit)
    decreases |props|
  {
    if props != [] {
      var n := |props| - 1;
      ShallowMembers(props[..n], stringLimit, q);
      assert props == props[..n] + [props[n]];
      assert ShallowFrom(props, q, stringLimit)
        <==> ShallowFrom(props[..n], q, stringLimit) || (!Nested(props[n].value) && q == ShallowProp(props[n], stringLimit));
    }
  }

  /** What is left at the depth limit stays in order. */
  lemma {:induction false} ShallowRises(props: seq<Prop>, stringLimit: nat)
    requires Rising(props)
    ensures Rising(Shallow(props, stringLimit))
    decreases |props|
  {
    if props != [] {
      var n := |props| - 1;
      ShallowRises(props[..n], stringLimit);
      var rest, last := Shallow(props[..n], stringLimit), props[n];
      hide NameOf, Ahead, Shallow;
      forall q | q in rest ensures Ahead(Name(q), Name(last)) {
        ShallowMembers(props[..n], stringLimit, q);
        var p :| p in props[..n] && !Nested(p.value) && q == ShallowProp(p, stringLimit);
        var i :| 0 <= i < n && props[..n][i] == p;
        assert props[i] == p;
      }
      ShallowLast(props, stringLimit);
    }
  }

  lemma ShallowLast(props: seq<Prop>, stringLimit: nat)
    requires props != []
    ensures var (rest, last) := (Shallow(props[..|props| - 1], stringLimit), props[|props| - 1]);
            Shallow(props, stringLimit) == if Nested(last.value) then rest else rest + [ShallowProp(last, stringLimit)]
  {
  }

  ghost predicate ShallowFrom(props: seq<Prop>, q: Prop, stringLimit: nat) {
    exists p :: p in props && !Nested(p.value) && q == ShallowProp(p, stringLimit)
  }

  /** A bounded value is cut as described, whatever its shape. */
  lemma {:induction false} BoundedIsCut(v: Value, limits: Limits, level: nat)
    requires Proper(v)
    ensures CutTo(v, Bounded(v, limits, level), limits, level)
    decreases if level < limits.depth then limits.depth - level else 0, 1, 0
  {
    match v
    case Str(s) => CleanRespaces(s, limits.stringLimit);
    case Arr(items) =>
      if level < limits.depth {
        var kept := Take(items, limits.arrayLimit);
        forall k | 0 <= k < |kept| ensures CutTo(items[k], BoundedItems(kept, limits, level + 1)[k], limits, level + 1) {
          BoundedItemAt(kept, limits, level + 1, k);
          BoundedIsCut(items[k], limits, level + 1);
        }
      }
    case Obj(props) =>
      if level < limits.depth {
        DeepKeepsFirst(props, limits, level);
      } else {
        ShallowKeepsFirst(props, limits, level);
      }
    case _ =>
  }

  /** The properties with the first names. */
  lemma KeptAreFirst(props: seq<Prop>, limit: nat)
    requires DistinctNames(props)
    ensures var kept := Take(SortProps(props), limit);
            Rising(kept) && forall p :: p in kept <==> p in props && Rank(props, Name(p)) < limit
  {
    var sorted := SortProps(props);
    var kept := Take(sorted, limit);
    SortRises(props);
    hide NameOf, Rank, Ahead, SortProps;
    assert forall i :: 0 <= i < |kept| ==> kept[i] == sorted[i];
    forall p ensures p in kept <==> p in props && Rank(props, Name(p)) < limit {
      if p in kept {
        var i :| 0 <= i < |kept| && kept[i] == p;
        RankOfSorted(props, sorted, i);
      }
      if p in props && Rank(props, Name(p)) < limit {
        var i :| 0 <= i < |sorted| && sorted[i] == p;
        RankOfSorted(props, sorted, i);
        assert kept[i] == p;
      }
    }
  }

  lemma {:induction false} DeepKeeps(props: seq<Prop>, p: Prop, limits: Limits, level: nat)
    requires Proper(Obj(props)) && level < limits.depth && p in props && Rank(props, Name(p)) < limits.keyLimit
    ensures Keeps(props, Prop(p.key, Bounded(p.value, limits, level + 1)), limits, level)
    decreases limits.depth - level, 0, 0
  {
    hide NameOf, Rank, Bounded;
    var i :| 0 <= i < |props| && props[i] == p;
    BoundedIsCut(p.value, limits, level + 1);
  }

  lemma {:induction false} DeepKeepsFirst(props: seq<Prop>, limits: Limits, level: nat)
    requires Proper(Obj(props)) && level < limits.depth
    ensures KeepsFirst(props, BoundedProps(Take(SortProps(props), limits.keyLimit), limits, level + 1), limits, level)
    decreases limits.depth - level, 0, 1
  {
    var kept := Take(SortProps(props), limits.keyLimit);
    var out := BoundedProps(kept, limits, level + 1);
    KeptAreFirst(props, limits.keyLimit);
    hide NameOf, Rank, Ahead, SortProps, Bounded, BoundedProps, CutTo, Keeps, Proper;
    forall k | 0 <= k < |out| ensures out[k].key == kept[k].key && Keeps(props, out[k], limits, level) {
      BoundedPropAt(kept, limits, level + 1, k);
      assert kept[k] in kept;
      DeepKeeps(props, kept[k], limits, level);
    }
    assert Rising(out);
    forall p | p in props && Rank(props, Name(p)) < limits.keyLimit ensures HasKey(out, p.key) {
      var k :| 0 <= k < |kept| && kept[k] == p;
      assert out[k].key == p.key;
    }
  }

  lemma ShallowKeeps(props: seq<Prop>, p: Prop, limits: Limits, level: nat)
    requires level >= limits.depth && p in props && Rank(props, Name(p)) < limits.keyLimit && !Nested(p.value)
    ensures Keeps(props, ShallowProp(p, limits.stringLimit), limits, level)
  {
    hide NameOf, Rank, Clean, Words;
    if p.value.Str? {
      CleanRespaces(p.value.s, limits.stringLimit);
    }
    assert CutTo(p.value, ShallowProp(p, limits.stringLimit).value, limits, level + 1);
  }

  lemma ShallowKeepsFirst(props: seq<Prop>, limits: Limits, level: nat)
    requires DistinctNames(props) && level >= limits.depth
    ensures KeepsFirst(props, Shallow(Take(SortProps(props), limits.keyLimit), limits.stringLimit), limits, level)
  {
    var kept := Take(SortProps(props), limits.keyLimit);
    var out := Shallow(kept, limits.stringLimit);
    KeptAreFirst(props, limits.keyLimit);
    ShallowRises(kept, limits.stringLimit);
    hide NameOf, Rank, Ahead, SortProps, Shallow, Words, Clean, Keeps, CutTo, Rising, DistinctNames;
    forall k | 0 <= k < |out| ensures Keeps(props, out[k], limits, level) {
      ShallowMembers(kept, limits.stringLimit, out[k]);
      var p :| p in kept && !Nested(p.value) && out[k] == ShallowProp(p, limits.stringLimit);
      ShallowKeeps(props, p, limits, level);
    }
    forall p | p in props && Rank(props, Name(p)) < limits.keyLimit && !Nested(p.value) ensures HasKey(out, p.key) {
      ShallowMembers(kept, limits.stringLimit, ShallowProp(p, limits.stringLimit));
      var k :| 0 <= k < |out| && out[k] == ShallowProp(p, limits.stringLimit);
      assert out[k].key == p.key;
    }
  }

  // ----- the references of a value

  /** A property refers to what stands trimmed under `ref`, and to each text listed under `sourceRefs`; blanks refer to nothing. */
  predicate RefersTo(p: Prop, t: Text) {
    && t != []
    && ((p.key == Ref && p.value.Str? && t == TrimEnd(TrimStart(p.value.s)))
        || (p.key == SourceRefs && p.value.Arr? && exists v :: v in p.value.items && v.Str? && t == TrimEnd(TrimStart(v.s))))
  }

  /** The references of an object are those of its properties and of their values, however deep. */
  lemma {:induction false} RefsExactly(props: seq<Prop>, t: Text)
    ensures t in Refs(Obj(props)) <==> exists p :: p in props && (RefersTo(p, t) || t in Refs(p.value))
    decreases |props|
  {
    if props != [] {
      var (front, last) := (props[..|props| - 1], props[|props| - 1]);
      RefsExactly(front, t);
      OwnRefsExactly(last, t);
      assert props == front + [last];
      assert PropsRefs(props) == PropsRefs(front) + PropRefs(last);
      assert Refs(Obj(props)) == PropsRefs(props) && Refs(Obj(front)) == PropsRefs(front);
      hide RefersTo, OwnRefs, Refs, PropsRefs;
      assert forall p :: p in props <==> p in front || p == last;
      if p :| p in props && (RefersTo(p, t) || t in Refs(p.value)) {
        assert p in front || p == last;
      }
    }
  }

  lemma OwnRefsExactly(p: Prop, t: Text)
    ensures t in OwnRefs(p) <==> RefersTo(p, t)
  {
    hide TrimStart, TrimEnd;
  }
}
