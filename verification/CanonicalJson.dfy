/**
 * The canonical printer run over a JavaScript object graph, where values are
 * shared by reference and may be cyclic.
 */
module CanonicalJson {
  import opened Wrappers
  import opened Utf16Text
  import opened JsonText
  import opened KeySort

  type Ref = nat

  datatype Value =
    | VNull
    | VBool(b: bool)
    | VNumber(token: NumberToken)
    | VNonFinite
    | VString(s: Text)
    | VObject(ref: Ref)
    | VOther // undefined, functions, symbols, big integers

  datatype Slot = Absent | Accessor | Data(value: Value)

  /** An own enumerable key of an array that is not one of its indices. */
  datatype ExtraKey = ExtraKey(looksLikeIndex: bool, accessor: bool)

  type Prop = Keyed<Slot>

  datatype Node =
    | ArrayNode(standardPrototype: bool, symbols: bool, slots: seq<Slot>, extras: seq<ExtraKey>)
    | ObjectNode(plainPrototype: bool, symbols: bool, props: seq<Prop>)

  type Heap = Ref -> Node

  datatype Error = TooDeep | NonJson

  const MAX_DEPTH := 32

  // ----- which nodes are accepted

  function Present(slots: seq<Slot>): nat {
    if slots == [] then 0 else (if slots[0].Absent? then 0 else 1) + Present(slots[1..])
  }

  /** The checks on prototype, key count, symbols, key shape and property descriptors. */
  predicate Accepts(n: Node) {
    match n
    case ArrayNode(standardPrototype, symbols, slots, extras) =>
      && standardPrototype
      && Present(slots) + |extras| == |slots|
      && !symbols
      && (forall x :: x in extras ==> x.looksLikeIndex && !x.accessor)
      && (forall s :: s in slots ==> !s.Accessor?)
    case ObjectNode(plainPrototype, symbols, props) =>
      plainPrototype && !symbols && forall p :: p in props ==> p.value.Data?
  }

  // ----- children in canonical order

  /** The children in the order they are printed, and the text printed before each. */
  function Children(n: Node): seq<Slot> {
    match n
    case ArrayNode(_, _, slots, _) => slots
    case ObjectNode(_, _, props) =>
      var sorted := SortByKey(props);
      seq(|sorted|, i requires 0 <= i < |sorted| => sorted[i].value)
  }

  function Labels(n: Node): (labels: seq<Text>)
    ensures |labels| == |Children(n)|
  {
    match n
    case ArrayNode(_, _, slots, _) => seq(|slots|, i => [])
    case ObjectNode(_, _, props) =>
      var sorted := SortByKey(props);
      seq(|sorted|, i requires 0 <= i < |sorted| => Quote(sorted[i].key) + [COLON])
  }

  function Opening(n: Node): CodeUnit { if n.ArrayNode? then LBRACKET else LBRACE }

  function Closing(n: Node): CodeUnit { if n.ArrayNode? then RBRACKET else RBRACE }

  // ----- what a call computes: text or the first error, given the ancestors

  function Inner(h: Heap, v: Value, seen: set<Ref>, depth: nat): Result<Text, Error>
    decreases if depth > MAX_DEPTH then 0 else MAX_DEPTH + 1 - depth, 1, 0
  {
    if depth > MAX_DEPTH then Err(TooDeep)
    else
      match v
      case VNull => Ok(NULL)
      case VBool(b) => Ok(if b then TRUE else FALSE)
      case VNumber(token) => Ok(token)
      case VString(s) => Ok(Quote(s))
      case VObject(r) =>
        var n := h(r);
        if r in seen || !Accepts(n) then Err(NonJson)
        else
          (match InnerChildren(h, Labels(n), Children(n), seen + {r}, depth + 1)
           case Err(e) => Err(e)
           case Ok(body) => Ok([Opening(n)] + body + [Closing(n)]))
      case _ => Err(NonJson)
  }

  function InnerChildren(h: Heap, labels: seq<Text>, slots: seq<Slot>, seen: set<Ref>, depth: nat)
    : Result<Text, Error>
    requires |labels| == |slots|
    decreases if depth > MAX_DEPTH then 0 else MAX_DEPTH + 1 - depth, 2, |slots|
  {
    if slots == [] then Ok([])
    else
      match InnerSlot(h, slots[0], seen, depth)
      case Err(e) => Err(e)
      case Ok(piece) =>
        if |slots| == 1 then Ok(labels[0] + piece)
        else
          match InnerChildren(h, labels[1..], slots[1..], seen, depth)
          case Err(e) => Err(e)
          case Ok(rest) => Ok(labels[0] + piece + [COMMA] + rest)
  }

  /** Array.prototype.map skips absent elements, and join prints them as nothing. */
  function InnerSlot(h: Heap, slot: Slot, seen: set<Ref>, depth: nat): Result<Text, Error>
    decreases if depth > MAX_DEPTH then 0 else MAX_DEPTH + 1 - depth, 2, 0
  {
    match slot
    case Absent => Ok([])
    case Accessor => Err(NonJson)
    case Data(value) => Inner(h, value, seen, depth)
  }

  // ----- the call itself, with the set of ancestors updated in place

  class SeenSet {
    var members: set<Ref>

    constructor ()
      ensures members == {}
    {
      members := {};
    }

    method Add(r: Ref)
      modifies this
      ensures members == old(members) + {r}
    {
      members := members + {r};
    }

    method Delete(r: Ref)
      modifies this
      ensures members == old(members) - {r}
    {
      members := members - {r};
    }
  }

  /** Computes the text or the first error, and leaves `seen` as it found it on every exit. */
  method CanonicalInner(h: Heap, v: Value, seen: SeenSet, depth: nat) returns (r: Result<Text, Error>)
    modifies seen
    ensures seen.members == old(seen.members)
    ensures r == Inner(h, v, old(seen.members), depth)
    decreases if depth > MAX_DEPTH then 0 else MAX_DEPTH + 1 - depth, 1
  {
    if depth > MAX_DEPTH {
      return Err(TooDeep);
    }
    match v {
      case VNull => r := Ok(NULL);
      case VBool(b) => r := Ok(if b then TRUE else FALSE);
      case VNumber(token) => r := Ok(token);
      case VString(s) => r := Ok(Quote(s));
      case VObject(ref) =>
        var n := h(ref);
        if ref in seen.members || !Accepts(n) {
          return Err(NonJson);
        }
        seen.Add(ref);
        var body := MapJoin(h, Labels(n), Children(n), seen, depth + 1);
        seen.Delete(ref);
        match body {
          case Err(e) => r := Err(e);
          case Ok(text) => r := Ok([Opening(n)] + text + [Closing(n)]);
        }
      case _ => r := Err(NonJson);
    }
  }

  lemma MapJoinStep(h: Heap, labels: seq<Text>, slots: seq<Slot>, seen: set<Ref>, depth: nat, k: nat, text: Text, piece: Text)
    requires |labels| == |slots| && k < |slots| && InnerSlot(h, slots[k], seen, depth) == Ok(piece)
    ensures var separator := if k + 1 < |slots| then [COMMA] else [];
            match InnerChildren(h, labels[k + 1..], slots[k + 1..], seen, depth)
            case Err(e) => InnerChildren(h, labels[k..], slots[k..], seen, depth) == Err(e)
            case Ok(rest) =>
              && InnerChildren(h, labels[k..], slots[k..], seen, depth).Ok?
              && text + InnerChildren(h, labels[k..], slots[k..], seen, depth).value
                 == text + labels[k] + piece + separator + rest
  {
    assert labels[k..][1..] == labels[k + 1..] && slots[k..][1..] == slots[k + 1..];
    assert labels[k..][0] == labels[k] && slots[k..][0] == slots[k];
  }

  method MapJoin(h: Heap, labels: seq<Text>, slots: seq<Slot>, seen: SeenSet, depth: nat)
    returns (r: Result<Text, Error>)
    requires |labels| == |slots|
    modifies seen
    ensures seen.members == old(seen.members)
    ensures r == InnerChildren(h, labels, slots, old(seen.members), depth)
    decreases if depth > MAX_DEPTH then 0 else MAX_DEPTH + 1 - depth, 2
  {
    var text: Text := [];
    var k := 0;
    assert labels[0..] == labels && slots[0..] == slots;
    assert forall t: Text :: [] + t == t;
    while k < |slots|
      invariant 0 <= k <= |slots|
      invariant seen.members == old(seen.members)
      invariant match InnerChildren(h, labels[k..], slots[k..], old(seen.members), depth)
                case Err(e) => InnerChildren(h, labels, slots, old(seen.members), depth) == Err(e)
                case Ok(rest) => InnerChildren(h, labels, slots, old(seen.members), depth) == Ok(text + rest)
    {
      var piece: Text := [];
      match slots[k] {
        case Absent =>
        case Accessor => return Err(NonJson);
        case Data(value) =>
          var inner := CanonicalInner(h, value, seen, depth);
          match inner {
            case Err(e) => return Err(e);
            case Ok(t) => piece := t;
          }
      }
      var separator := if k + 1 < |slots| then [COMMA] else [];
      MapJoinStep(h, labels, slots, old(seen.members), depth, k, text, piece);
      text := text + labels[k] + piece + separator;
      k := k + 1;
    }
    assert text + [] == text;
    r := Ok(text);
  }

  /** canonicalJson: a fresh set of ancestors, depth 0. */
  method Canonical(h: Heap, v: Value) returns (r: Result<Text, Error>)
    ensures r == Inner(h, v, {}, 0)
  {
    var seen := new SeenSet();
    r := CanonicalInner(h, v, seen, 0);
  }

  // ----- reference definition: the unfolding as a JSON tree, ignoring ancestors

  /** The unfolding of a value if it is a JSON tree of at most `levels` levels. */
  function Tree(h: Heap, v: Value, levels: nat): Option<Json>
    decreases levels, 0, 0
  {
    if levels == 0 then None
    else
      match v
      case VNull => Some(Null)
      case VBool(b) => Some(Bool(b))
      case VNumber(token) => Some(Num(token))
      case VString(s) => Some(Str(s))
      case VObject(r) =>
        if !Accepts(h(r)) then None
        else
          (match TreeChildren(h, Children(h(r)), levels - 1)
           case None => None
           case Some(items) => Some(Assemble(h(r), items)))
      case _ => None
  }

  function TreeChildren(h: Heap, slots: seq<Slot>, levels: nat): (r: Option<seq<Json>>)
    ensures r.Some? ==> |r.value| == |slots|
    decreases levels, 1, |slots|
  {
    if slots == [] then Some([])
    else
      match (TreeSlot(h, slots[0], levels), TreeChildren(h, slots[1..], levels))
      case (Some(item), Some(items)) => Some([item] + items)
      case _ => None
  }

  function TreeSlot(h: Heap, slot: Slot, levels: nat): Option<Json>
    decreases levels, 1, 0
  {
    match slot
    case Absent => Some(Hole)
    case Accessor => None
    case Data(value) => Tree(h, value, levels)
  }

  function Assemble(n: Node, items: seq<Json>): Json
    requires |items| == |Children(n)|
  {
    match n
    case ArrayNode(_, _, _, _) => Arr(items)
    case ObjectNode(_, _, props) => Obj(Zip(Keys(SortByKey(props)), items))
  }

  function Zip(keys: seq<Text>, items: seq<Json>): seq<Field>
    requires |keys| == |items|
  {
    seq(|keys|, i requires 0 <= i < |keys| => Field(keys[i], items[i]))
  }

  // ----- printing the tree prints labelled children

  function JoinLabelled(labels: seq<Text>, items: seq<Json>): Text
    requires |labels| == |items|
  {
    if items == [] then []
    else if |items| == 1 then labels[0] + Print(items[0])
    else labels[0] + Print(items[0]) + [COMMA] + JoinLabelled(labels[1..], items[1..])
  }

  lemma {:induction false} JoinUnlabelled(labels: seq<Text>, items: seq<Json>)
    requires |labels| == |items| && forall k :: 0 <= k < |labels| ==> labels[k] == []
    ensures JoinLabelled(labels, items) == PrintItems(items)
  {
    if items != [] {
      assert [] + Print(items[0]) == Print(items[0]);
      if |items| > 1 {
        JoinUnlabelled(labels[1..], items[1..]);
      }
    }
  }

  lemma {:induction false} JoinKeyed(keys: seq<Text>, labels: seq<Text>, items: seq<Json>)
    requires |keys| == |labels| == |items|
    requires forall k :: 0 <= k < |keys| ==> labels[k] == Quote(keys[k]) + [COLON]
    ensures JoinLabelled(labels, items) == PrintFields(Zip(keys, items))
  {
    if items != [] {
      assert Quote(keys[0]) + [COLON] + Print(items[0]) == Quote(keys[0]) + ([COLON] + Print(items[0]));
      if |items| > 1 {
        JoinKeyed(keys[1..], labels[1..], items[1..]);
        assert Zip(keys, items)[1..] == Zip(keys[1..], items[1..]);
      }
    }
  }

  lemma PrintArray(n: Node, items: seq<Json>)
    requires n.ArrayNode? && |items| == |Children(n)|
    ensures Print(Assemble(n, items)) == [Opening(n)] + JoinLabelled(Labels(n), items) + [Closing(n)]
  {
    hide PrintItems, PrintFields, JoinLabelled, SortByKey;
    JoinUnlabelled(Labels(n), items);
  }

  lemma PrintObject(n: Node, items: seq<Json>)
    requires n.ObjectNode? && |items| == |Children(n)|
    ensures Print(Assemble(n, items)) == [Opening(n)] + JoinLabelled(Labels(n), items) + [Closing(n)]
  {
    hide PrintItems, PrintFields, JoinLabelled, SortByKey, Quote, Zip;
    var ps := SortByKey(n.props);
    assert forall k :: 0 <= k < |ps| ==> Labels(n)[k] == Quote(Keys(ps)[k]) + [COLON];
    JoinKeyed(Keys(ps), Labels(n), items);
  }

  lemma PrintAssembled(n: Node, items: seq<Json>)
    requires |items| == |Children(n)|
    ensures Print(Assemble(n, items)) == [Opening(n)] + JoinLabelled(Labels(n), items) + [Closing(n)]
  {
    hide Print, Assemble, JoinLabelled, Labels, Children;
    if n.ArrayNode? {
      PrintArray(n, items);
    } else {
      PrintObject(n, items);
    }
  }

  // ----- cycles: the ancestor check never changes which calls succeed

  /** No object of `s` is met within `levels` levels. */
  predicate Avoids(h: Heap, v: Value, levels: nat, s: set<Ref>)
    decreases levels, 0
  {
    levels > 0 && v.VObject? ==> v.ref !in s && ChildrenAvoid(h, Children(h(v.ref)), levels - 1, s)
  }

  predicate ChildrenAvoid(h: Heap, slots: seq<Slot>, levels: nat, s: set<Ref>)
    decreases levels, 1
  {
    forall k :: 0 <= k < |slots| && slots[k].Data? ==> Avoids(h, slots[k].value, levels, s)
  }

  lemma {:induction false} AvoidsUnion(h: Heap, v: Value, levels: nat, s: set<Ref>, s': set<Ref>)
    ensures Avoids(h, v, levels, s + s') <==> Avoids(h, v, levels, s) && Avoids(h, v, levels, s')
    decreases levels, 0
  {
    if levels > 0 && v.VObject? {
      ChildrenAvoidUnion(h, Children(h(v.ref)), levels - 1, s, s');
    }
  }

  lemma {:induction false} ChildrenAvoidUnion(h: Heap, slots: seq<Slot>, levels: nat, s: set<Ref>, s': set<Ref>)
    ensures ChildrenAvoid(h, slots, levels, s + s')
       <==> ChildrenAvoid(h, slots, levels, s) && ChildrenAvoid(h, slots, levels, s')
    decreases levels, 1
  {
    forall k | 0 <= k < |slots| && slots[k].Data?
      ensures Avoids(h, slots[k].value, levels, s + s')
         <==> Avoids(h, slots[k].value, levels, s) && Avoids(h, slots[k].value, levels, s')
    {
      AvoidsUnion(h, slots[k].value, levels, s, s');
    }
  }

  function Size(j: Json): nat
    decreases j, 1
  {
    match j
    case Arr(items) => 1 + SizeItems(items)
    case Obj(fields) => 1 + SizeFields(fields)
    case _ => 1
  }

  function SizeItems(items: seq<Json>): nat
    decreases items, 0
  {
    if items == [] then 0 else Size(items[0]) + SizeItems(items[1..])
  }

  function SizeFields(fields: seq<Field>): nat
    decreases fields, 0
  {
    if fields == [] then 0 else Size(fields[0].value) + SizeFields(fields[1..])
  }

  lemma {:induction false} SizeZip(keys: seq<Text>, items: seq<Json>)
    requires |keys| == |items|
    ensures SizeFields(Zip(keys, items)) == SizeItems(items)
  {
    if keys != [] {
      SizeZip(keys[1..], items[1..]);
      assert Zip(keys, items)[1..] == Zip(keys[1..], items[1..]);
    }
  }

  lemma SizeAssembled(n: Node, items: seq<Json>)
    requires |items| == |Children(n)|
    ensures Size(Assemble(n, items)) == 1 + SizeItems(items)
  {
    if n.ObjectNode? {
      SizeZip(Keys(SortByKey(n.props)), items);
    }
  }

  lemma {:induction false} SizeOfItem(items: seq<Json>, k: nat)
    requires k < |items|
    ensures Size(items[k]) <= SizeItems(items)
  {
    if k > 0 {
      SizeOfItem(items[1..], k - 1);
    }
  }

  lemma {:induction false} TreeChildAt(h: Heap, slots: seq<Slot>, levels: nat, k: nat)
    requires TreeChildren(h, slots, levels).Some? && k < |slots|
    ensures TreeSlot(h, slots[k], levels) == Some(TreeChildren(h, slots, levels).value[k])
  {
    if k > 0 {
      TreeChildAt(h, slots[1..], levels, k - 1);
    }
  }

  /** More levels never change an unfolding that already fits. */
  lemma {:induction false} TreeMonotone(h: Heap, v: Value, levels: nat, more: nat)
    requires levels <= more && Tree(h, v, levels).Some?
    ensures Tree(h, v, more) == Tree(h, v, levels)
    decreases levels, 0
  {
    if v.VObject? {
      TreeChildrenMonotone(h, Children(h(v.ref)), levels - 1, more - 1);
    }
  }

  lemma {:induction false} TreeChildrenMonotone(h: Heap, slots: seq<Slot>, levels: nat, more: nat)
    requires levels <= more && TreeChildren(h, slots, levels).Some?
    ensures TreeChildren(h, slots, more) == TreeChildren(h, slots, levels)
    decreases levels, 1, |slots|
  {
    if slots != [] {
      if slots[0].Data? {
        TreeMonotone(h, slots[0].value, levels, more);
      }
      TreeChildrenMonotone(h, slots[1..], levels, more);
    }
  }

  /** An object met inside an unfolding has an unfolding of its own, no larger. */
  lemma {:induction false} Occurrence(h: Heap, v: Value, levels: nat, r: Ref) returns (inside: nat)
    requires Tree(h, v, levels).Some? && !Avoids(h, v, levels, {r})
    ensures inside <= levels && Tree(h, VObject(r), inside).Some?
    ensures Size(Tree(h, VObject(r), inside).value) <= Size(Tree(h, v, levels).value)
    decreases levels, 0
  {
    inside := levels;
    if v.ref != r {
      var slots := Children(h(v.ref));
      var items := TreeChildren(h, slots, levels - 1).value;
      inside := OccurrenceInChildren(h, slots, levels - 1, r);
      SizeAssembled(h(v.ref), items);
    }
  }

  lemma {:induction false} OccurrenceInChildren(h: Heap, slots: seq<Slot>, levels: nat, r: Ref) returns (inside: nat)
    requires TreeChildren(h, slots, levels).Some? && !ChildrenAvoid(h, slots, levels, {r})
    ensures inside <= levels && Tree(h, VObject(r), inside).Some?
    ensures Size(Tree(h, VObject(r), inside).value) <= SizeItems(TreeChildren(h, slots, levels).value)
    decreases levels, 1
  {
    var k :| 0 <= k < |slots| && slots[k].Data? && !Avoids(h, slots[k].value, levels, {r});
    TreeChildAt(h, slots, levels, k);
    SizeOfItem(TreeChildren(h, slots, levels).value, k);
    inside := Occurrence(h, slots[k].value, levels, r);
  }

  /** An object that unfolds to a finite tree does not contain itself. */
  lemma UnfoldingIsAcyclic(h: Heap, r: Ref, levels: nat)
    requires levels > 0 && Tree(h, VObject(r), levels).Some?
    ensures ChildrenAvoid(h, Children(h(r)), levels - 1, {r})
  {
    var slots := Children(h(r));
    if !ChildrenAvoid(h, slots, levels - 1, {r}) {
      var inside := OccurrenceInChildren(h, slots, levels - 1, r);
      TreeMonotone(h, VObject(r), inside, levels);
      SizeAssembled(h(r), TreeChildren(h, slots, levels - 1).value);
    }
  }

  /**
   * A nested call succeeds exactly when the unfolding is a JSON tree within the
   * remaining depth that meets no ancestor, and then prints that tree.
   */
  lemma {:induction false} InnerPrintsTree(h: Heap, v: Value, seen: set<Ref>, depth: nat)
    requires depth <= MAX_DEPTH + 1
    ensures var levels := MAX_DEPTH + 1 - depth;
            && (Inner(h, v, seen, depth).Ok? <==> Tree(h, v, levels).Some? && Avoids(h, v, levels, seen))
            && (Inner(h, v, seen, depth).Ok? ==> Inner(h, v, seen, depth).value == Print(Tree(h, v, levels).value))
    decreases MAX_DEPTH + 1 - depth, 0, 0
  {
    if depth <= MAX_DEPTH && v.VObject? && Accepts(h(v.ref)) {
      hide Accepts, Children, Labels, Opening, Closing, Assemble, Print, InnerChildren, TreeChildren, JoinLabelled, ChildrenAvoid;
      var n, levels := h(v.ref), MAX_DEPTH + 1 - depth;
      var slots := Children(n);
      InnerChildrenPrintTrees(h, Labels(n), slots, seen + {v.ref}, depth + 1);
      ChildrenAvoidUnion(h, slots, levels - 1, seen, {v.ref});
      AvoidsObject(h, v, levels, seen);
      hide Avoids;
      if TreeChildren(h, slots, levels - 1).Some? {
        UnfoldingIsAcyclic(h, v.ref, levels);
        PrintAssembled(n, TreeChildren(h, slots, levels - 1).value);
      }
    }
  }

  lemma AvoidsObject(h: Heap, v: Value, levels: nat, seen: set<Ref>)
    requires v.VObject? && levels > 0
    ensures Avoids(h, v, levels, seen) <==> v.ref !in seen && ChildrenAvoid(h, Children(h(v.ref)), levels - 1, seen)
  {
  }

  lemma {:induction false} InnerChildrenPrintTrees(h: Heap, labels: seq<Text>, slots: seq<Slot>, seen: set<Ref>, depth: nat)
    requires |labels| == |slots| && depth <= MAX_DEPTH + 1
    ensures var levels := MAX_DEPTH + 1 - depth;
            && (InnerChildren(h, labels, slots, seen, depth).Ok?
                <==> TreeChildren(h, slots, levels).Some? && ChildrenAvoid(h, slots, levels, seen))
            && (InnerChildren(h, labels, slots, seen, depth).Ok?
                ==> InnerChildren(h, labels, slots, seen, depth).value
                    == JoinLabelled(labels, TreeChildren(h, slots, levels).value))
    decreases MAX_DEPTH + 1 - depth, 1, |slots|
  {
    if slots != [] {
      var levels := MAX_DEPTH + 1 - depth;
      if slots[0].Data? {
        InnerPrintsTree(h, slots[0].value, seen, depth);
      }
      InnerChildrenPrintTrees(h, labels[1..], slots[1..], seen, depth);
      assert ChildrenAvoid(h, slots, levels, seen)
        <==> (slots[0].Data? ==> Avoids(h, slots[0].value, levels, seen)) && ChildrenAvoid(h, slots[1..], levels, seen) by {
        assert forall k :: 0 < k < |slots| ==> slots[k] == slots[1..][k - 1];
      }
    }
  }

  /** The call succeeds exactly on JSON trees of depth at most 32, cyclic graphs included. */
  lemma SucceedsExactlyOnTrees(h: Heap, v: Value)
    ensures Inner(h, v, {}, 0).Ok? <==> Tree(h, v, MAX_DEPTH + 1).Some?
    ensures Inner(h, v, {}, 0).Ok? ==> Inner(h, v, {}, 0).value == Print(Tree(h, v, MAX_DEPTH + 1).value)
    ensures Inner(h, v, {}, 0).Ok? ==> WellFormed(Inner(h, v, {}, 0).value)
  {
    InnerPrintsTree(h, v, {}, 0);
    AvoidsNothing(h, v, MAX_DEPTH + 1);
    if Tree(h, v, MAX_DEPTH + 1).Some? {
      PrintWellFormed(Tree(h, v, MAX_DEPTH + 1).value);
    }
  }

  lemma {:induction false} AvoidsNothing(h: Heap, v: Value, levels: nat)
    ensures Avoids(h, v, levels, {})
    decreases levels
  {
    if levels > 0 && v.VObject? {
      var slots := Children(h(v.ref));
      forall k | 0 <= k < |slots| && slots[k].Data? ensures Avoids(h, slots[k].value, levels - 1, {}) {
        AvoidsNothing(h, slots[k].value, levels - 1);
      }
    }
  }

  // ----- equal texts mean equal values, whatever order the keys were added in

  /** An object has one property for each of its keys. */
  ghost predicate LanguageHeap(h: Heap) {
    forall r :: h(r).ObjectNode? ==> Distinct(Keys(h(r).props))
  }

  /** Structural equality of two graphs to a given number of levels; key order is irrelevant. */
  ghost predicate Same(h: Heap, v: Value, h': Heap, v': Value, levels: nat)
    decreases levels, 0
  {
    if v.VObject? && v'.VObject? && levels > 0 then SameNode(h, h(v.ref), h', h'(v'.ref), levels - 1)
    else v == v' && !v.VObject?
  }

  ghost predicate SameNode(h: Heap, n: Node, h': Heap, n': Node, levels: nat)
    decreases levels, 3
  {
    if n.ArrayNode? && n'.ArrayNode? then
      && |n.slots| == |n'.slots|
      && (forall k :: 0 <= k < |n.slots| ==> SameSlot(h, n.slots[k], h', n'.slots[k], levels))
    else
      n.ObjectNode? && n'.ObjectNode? && SameProps(h, n.props, h', n'.props, levels)
  }

  /** The property lists hold the same keys, with the same values under each. */
  ghost predicate SameProps(h: Heap, props: seq<Prop>, h': Heap, props': seq<Prop>, levels: nat)
    decreases levels, 2
  {
    && (forall k :: k in Keys(props) <==> k in Keys(props'))
    && (forall p, p' :: p in props && p' in props' && p.key == p'.key ==> SameSlot(h, p.value, h', p'.value, levels))
  }

  ghost predicate SameSlot(h: Heap, slot: Slot, h': Heap, slot': Slot, levels: nat)
    decreases levels, 1
  {
    (slot.Absent? && slot'.Absent?)
    || (slot.Data? && slot'.Data? && Same(h, slot.value, h', slot'.value, levels))
  }

  lemma {:induction false} SameExactlyWhenTreesEqual(h: Heap, v: Value, h': Heap, v': Value, levels: nat)
    requires LanguageHeap(h) && LanguageHeap(h')
    requires Tree(h, v, levels).Some? && Tree(h', v', levels).Some?
    ensures Same(h, v, h', v', levels) <==> Tree(h, v, levels) == Tree(h', v', levels)
    decreases levels, 0
  {
    if v.VObject? && v'.VObject? {
      SameNodeExactlyWhenTreesEqual(h, h(v.ref), h', h'(v'.ref), levels - 1);
    }
  }

  lemma {:induction false} SameNodeExactlyWhenTreesEqual(h: Heap, n: Node, h': Heap, n': Node, levels: nat)
    requires LanguageHeap(h) && LanguageHeap(h')
    requires n.ObjectNode? ==> Distinct(Keys(n.props))
    requires n'.ObjectNode? ==> Distinct(Keys(n'.props))
    requires TreeChildren(h, Children(n), levels).Some? && TreeChildren(h', Children(n'), levels).Some?
    ensures SameNode(h, n, h', n', levels)
       <==> Assemble(n, TreeChildren(h, Children(n), levels).value) == Assemble(n', TreeChildren(h', Children(n'), levels).value)
    decreases levels, 2
  {
    var items, items' := TreeChildren(h, Children(n), levels).value, TreeChildren(h', Children(n'), levels).value;
    if n.ArrayNode? && n'.ArrayNode? {
      if |n.slots| == |n'.slots| {
        SameSlotsExactlyWhenItemsEqual(h, n.slots, h', n'.slots, levels);
      }
    } else if n.ObjectNode? && n'.ObjectNode? {
      var ps, ps' := SortByKey(n.props), SortByKey(n'.props);
      ZipInjective(Keys(ps), items, Keys(ps'), items');
      SortedPropsSame(h, n.props, h', n'.props, levels);
      if |ps| == |ps'| {
        SameSlotsExactlyWhenItemsEqual(h, Children(n), h', Children(n'), levels);
        assert forall k :: 0 <= k < |ps| ==> Children(n)[k] == ps[k].value && Children(n')[k] == ps'[k].value;
      } else {
        assert |Keys(ps)| != |Keys(ps')|;
      }
    }
  }

  lemma ZipInjective(keys: seq<Text>, items: seq<Json>, keys': seq<Text>, items': seq<Json>)
    requires |keys| == |items| && |keys'| == |items'|
    ensures Zip(keys, items) == Zip(keys', items') <==> keys == keys' && items == items'
  {
    var a, b := Zip(keys, items), Zip(keys', items');
    if a == b {
      forall i | 0 <= i < |keys| ensures keys[i] == keys'[i] && items[i] == items'[i] {
        assert a[i] == b[i];
      }
    }
  }

  lemma {:induction false} SameSlotsExactlyWhenItemsEqual(h: Heap, slots: seq<Slot>, h': Heap, slots': seq<Slot>, levels: nat)
    requires LanguageHeap(h) && LanguageHeap(h') && |slots| == |slots'|
    requires TreeChildren(h, slots, levels).Some? && TreeChildren(h', slots', levels).Some?
    ensures (forall k :: 0 <= k < |slots| ==> SameSlot(h, slots[k], h', slots'[k], levels))
       <==> TreeChildren(h, slots, levels) == TreeChildren(h', slots', levels)
    decreases levels, 1
  {
    var items, items' := TreeChildren(h, slots, levels).value, TreeChildren(h', slots', levels).value;
    forall k | 0 <= k < |slots|
      ensures SameSlot(h, slots[k], h', slots'[k], levels) <==> items[k] == items'[k]
    {
      TreeChildAt(h, slots, levels, k);
      TreeChildAt(h', slots', levels, k);
      if slots[k].Data? && slots'[k].Data? {
        SameExactlyWhenTreesEqual(h, slots[k].value, h', slots'[k].value, levels);
      } else {
        HoleExactlyWhenAbsent(h, slots[k], levels);
        HoleExactlyWhenAbsent(h', slots'[k], levels);
      }
    }
    assert items == items' <==> forall k :: 0 <= k < |slots| ==> items[k] == items'[k];
  }

  lemma HoleExactlyWhenAbsent(h: Heap, slot: Slot, levels: nat)
    requires TreeSlot(h, slot, levels).Some?
    ensures TreeSlot(h, slot, levels) == Some(Hole) <==> slot.Absent?
    ensures !slot.Accessor?
  {
  }

  lemma SamePropsSorted(h: Heap, props: seq<Prop>, h': Heap, props': seq<Prop>, levels: nat)
    requires Distinct(Keys(props)) && Distinct(Keys(props'))
    ensures SameProps(h, props, h', props', levels) <==> SameProps(h, SortByKey(props), h', SortByKey(props'), levels)
  {
    SortedIsPermutation(props);
    SortedIsPermutation(props');
    SortDistinct(props);
    SortDistinct(props');
  }

  /** On sorted lists with distinct keys, comparing by key is comparing by position. */
  lemma SamePropsByPosition(h: Heap, ps: seq<Prop>, h': Heap, ps': seq<Prop>, levels: nat)
    requires Ordered(Keys(ps)) && Ordered(Keys(ps')) && Distinct(Keys(ps)) && Distinct(Keys(ps'))
    ensures SameProps(h, ps, h', ps', levels)
       <==> Keys(ps) == Keys(ps') && forall k :: 0 <= k < |ps| ==> SameSlot(h, ps[k].value, h', ps'[k].value, levels)
  {
    if forall k :: k in Keys(ps) <==> k in Keys(ps') {
      SortedKeysUnique(Keys(ps), Keys(ps'));
    }
    if Keys(ps) == Keys(ps') {
      assert |ps| == |Keys(ps)| == |ps'|;
      assert forall k :: 0 <= k < |ps| ==> ps[k].key == Keys(ps)[k] == ps'[k].key;
      if forall k :: 0 <= k < |ps| ==> SameSlot(h, ps[k].value, h', ps'[k].value, levels) {
        forall p, p' | p in ps && p' in ps' && p.key == p'.key
          ensures SameSlot(h, p.value, h', p'.value, levels)
        {
          var i :| 0 <= i < |ps| && ps[i] == p;
          var j :| 0 <= j < |ps'| && ps'[j] == p';
          assert Keys(ps)[i] == Keys(ps)[j];
        }
      }
    }
  }

  lemma SortedPropsSame(h: Heap, props: seq<Prop>, h': Heap, props': seq<Prop>, levels: nat)
    requires Distinct(Keys(props)) && Distinct(Keys(props'))
    ensures var ps, ps' := SortByKey(props), SortByKey(props');
            SameProps(h, props, h', props', levels)
            <==> Keys(ps) == Keys(ps') && forall k :: 0 <= k < |ps| ==> SameSlot(h, ps[k].value, h', ps'[k].value, levels)
  {
    SamePropsSorted(h, props, h', props', levels);
    SortIsOrdered(props);
    SortIsOrdered(props');
    SortDistinct(props);
    SortDistinct(props');
    SamePropsByPosition(h, SortByKey(props), h', SortByKey(props'), levels);
  }

  /** No array within the unfolding carries an extra key. */
  predicate NoExtraKeys(h: Heap, v: Value, levels: nat)
    decreases levels
  {
    levels > 0 && v.VObject? ==>
      var n := h(v.ref);
      && (n.ArrayNode? ==> n.extras == [])
      && (forall k :: 0 <= k < |Children(n)| && Children(n)[k].Data? ==> NoExtraKeys(h, Children(n)[k].value, levels - 1))
  }

  lemma {:induction false} PresentCountsHoles(slots: seq<Slot>)
    ensures Present(slots) <= |slots|
    ensures Present(slots) == |slots| <==> forall k :: 0 <= k < |slots| ==> !slots[k].Absent?
  {
    if slots != [] {
      PresentCountsHoles(slots[1..]);
      assert forall k :: 0 < k < |slots| ==> slots[k] == slots[1..][k - 1];
    }
  }

  lemma DenseZip(keys: seq<Text>, items: seq<Json>)
    requires |keys| == |items|
    ensures Dense(Obj(Zip(keys, items))) <==> forall k :: 0 <= k < |items| ==> Dense(items[k])
  {
    assert forall k :: 0 <= k < |items| ==> Zip(keys, items)[k].value == items[k];
  }

  lemma {:induction false} DenseExactlyWhenNoExtraKeys(h: Heap, v: Value, levels: nat)
    requires Tree(h, v, levels).Some?
    ensures Dense(Tree(h, v, levels).value) <==> NoExtraKeys(h, v, levels)
    decreases levels
  {
    if v.VObject? {
      var n := h(v.ref);
      var slots := Children(n);
      var items := TreeChildren(h, slots, levels - 1).value;
      forall k | 0 <= k < |slots|
        ensures Dense(items[k]) <==> slots[k].Data? && NoExtraKeys(h, slots[k].value, levels - 1)
      {
        TreeChildAt(h, slots, levels - 1, k);
        if slots[k].Data? {
          DenseExactlyWhenNoExtraKeys(h, slots[k].value, levels - 1);
        }
      }
      if n.ArrayNode? {
        PresentCountsHoles(slots);
        assert forall k :: 0 <= k < |slots| ==> slots[k] in slots;
      } else {
        var ps := SortByKey(n.props);
        SortedIsPermutation(n.props);
        assert forall k :: 0 <= k < |slots| ==> ps[k] in ps && slots[k] == ps[k].value;
        DenseZip(Keys(ps), items);
      }
    }
  }

  /**
   * Two accepted graphs print the same text exactly when they are the same
   * value, provided neither holds an array with extra keys.
   */
  lemma EqualTextsExactlyWhenSame(h: Heap, v: Value, h': Heap, v': Value)
    requires LanguageHeap(h) && LanguageHeap(h')
    requires Inner(h, v, {}, 0).Ok? && Inner(h', v', {}, 0).Ok?
    requires NoExtraKeys(h, v, MAX_DEPTH + 1) && NoExtraKeys(h', v', MAX_DEPTH + 1)
    ensures Inner(h, v, {}, 0) == Inner(h', v', {}, 0) <==> Same(h, v, h', v', MAX_DEPTH + 1)
  {
    SucceedsExactlyOnTrees(h, v);
    SucceedsExactlyOnTrees(h', v');
    DenseExactlyWhenNoExtraKeys(h, v, MAX_DEPTH + 1);
    DenseExactlyWhenNoExtraKeys(h', v', MAX_DEPTH + 1);
    SameExactlyWhenTreesEqual(h, v, h', v', MAX_DEPTH + 1);
    var t, t' := Tree(h, v, MAX_DEPTH + 1).value, Tree(h', v', MAX_DEPTH + 1).value;
    if Print(t) == Print(t') {
      PrintInjective(t, t');
    }
  }

  /** With a hash that never collides, an approval bound to a digest is bound to one value of the arguments. */
  lemma DigestsTellArguments(hash: Text -> nat, h: Heap, v: Value, h': Heap, v': Value)
    requires forall s, t :: hash(s) == hash(t) ==> s == t
    requires LanguageHeap(h) && LanguageHeap(h')
    requires Inner(h, v, {}, 0).Ok? && Inner(h', v', {}, 0).Ok?
    requires NoExtraKeys(h, v, MAX_DEPTH + 1) && NoExtraKeys(h', v', MAX_DEPTH + 1)
    ensures hash(Inner(h, v, {}, 0).value) == hash(Inner(h', v', {}, 0).value) <==> Same(h, v, h', v', MAX_DEPTH + 1)
  {
    EqualTextsExactlyWhenSame(h, v, h', v');
  }

  /** The text of an accepted value reads back as that value exactly when no array carries an extra key. */
  lemma ReadsBackExactlyWhenNoExtraKeys(h: Heap, v: Value)
    requires Tree(h, v, MAX_DEPTH + 1).Some?
    ensures Inner(h, v, {}, 0).Ok?
    ensures Parse(Inner(h, v, {}, 0).value) == Some(Parsed(Tree(h, v, MAX_DEPTH + 1).value, []))
       <==> NoExtraKeys(h, v, MAX_DEPTH + 1)
  {
    SucceedsExactlyOnTrees(h, v);
    DenseExactlyWhenNoExtraKeys(h, v, MAX_DEPTH + 1);
    RoundTripExactlyWhenDense(Tree(h, v, MAX_DEPTH + 1).value);
  }

  /** A one-element array with a hole and the key "4294967295" prints as the empty array does. */
  lemma SparseArrayPrintsAsEmpty(h: Heap)
    requires h(0) == ArrayNode(true, false, [], [])
    requires h(1) == ArrayNode(true, false, [Absent], [ExtraKey(true, false)])
    ensures Inner(h, VObject(0), {}, 0) == Inner(h, VObject(1), {}, 0) == Ok([LBRACKET, RBRACKET])
    ensures !Same(h, VObject(0), h, VObject(1), MAX_DEPTH + 1)
  {
    assert Labels(h(1)) == [[]];
    assert Present([Absent]) == 0;
    var empty: Text := [];
    assert empty + empty == empty;
    assert InnerSlot(h, Absent, {} + {1}, 1) == Ok(empty);
    assert InnerChildren(h, [empty], [Absent], {} + {1}, 1) == Ok(empty);
    assert InnerChildren(h, [], [], {} + {0}, 1) == Ok(empty);
    assert [LBRACKET] + [] + [RBRACKET] == [LBRACKET, RBRACKET];
  }
}
