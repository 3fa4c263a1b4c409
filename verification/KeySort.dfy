/** Sorting properties by key, code unit by code unit, and why the result is unique. */
module KeySort {
  import opened Utf16Text

  datatype Keyed<+V> = Keyed(key: Text, value: V)

  function Insert<V>(p: Keyed<V>, ps: seq<Keyed<V>>): seq<Keyed<V>> {
    if ps == [] || Leq(p.key, ps[0].key) then [p] + ps else [ps[0]] + Insert(p, ps[1..])
  }

  function SortByKey<V>(ps: seq<Keyed<V>>): seq<Keyed<V>> {
    if ps == [] then [] else Insert(ps[0], SortByKey(ps[1..]))
  }

  function Keys<V>(ps: seq<Keyed<V>>): seq<Text> {
    seq(|ps|, i requires 0 <= i < |ps| => ps[i].key)
  }

  predicate Distinct(keys: seq<Text>) {
    forall i, j :: 0 <= i < j < |keys| ==> keys[i] != keys[j]
  }

  predicate Ordered(keys: seq<Text>) {
    forall i, j :: 0 <= i < j < |keys| ==> Leq(keys[i], keys[j])
  }

  // ----- sorting keys

  lemma OrderedCons<V>(p: Keyed<V>, ps: seq<Keyed<V>>)
    requires Ordered(Keys(ps)) && forall q :: q in ps ==> Leq(p.key, q.key)
    ensures Ordered(Keys([p] + ps))
  {
    var keys := Keys([p] + ps);
    assert forall j :: 0 < j < |keys| ==> keys[j] == Keys(ps)[j - 1] == ps[j - 1].key;
  }

  lemma {:induction false} InsertMembers<V>(p: Keyed<V>, ps: seq<Keyed<V>>)
    ensures multiset(Insert(p, ps)) == multiset{p} + multiset(ps)
  {
    if ps != [] && !Leq(p.key, ps[0].key) {
      InsertMembers(p, ps[1..]);
      assert ps == [ps[0]] + ps[1..];
    }
  }

  lemma {:induction false} InsertOrdered<V>(p: Keyed<V>, ps: seq<Keyed<V>>)
    requires Ordered(Keys(ps))
    ensures Ordered(Keys(Insert(p, ps)))
  {
    if ps == [] {
    } else if Leq(p.key, ps[0].key) {
      forall q | q in ps ensures Leq(p.key, q.key) {
        FirstKeyLeast(ps, q);
        LeqTransitive(p.key, ps[0].key, q.key);
      }
      OrderedCons(p, ps);
    } else {
      var rest := Insert(p, ps[1..]);
      assert Keys(ps[1..]) == Keys(ps)[1..];
      InsertOrdered(p, ps[1..]);
      LeqTotal(p.key, ps[0].key);
      forall q | q in rest ensures Leq(ps[0].key, q.key) {
        InsertMembers(p, ps[1..]);
        assert q in multiset(rest);
        if q != p {
          assert q in ps[1..];
          FirstKeyLeast(ps, q);
        }
      }
      OrderedCons(ps[0], rest);
    }
  }

  lemma FirstKeyLeast<V>(ps: seq<Keyed<V>>, q: Keyed<V>)
    requires Ordered(Keys(ps)) && q in ps
    ensures Leq(ps[0].key, q.key)
  {
    var i :| 0 <= i < |ps| && ps[i] == q;
    if i == 0 {
      LeqTotal(q.key, q.key);
    } else {
      assert Leq(Keys(ps)[0], Keys(ps)[i]);
    }
  }

  lemma {:induction false} SortIsOrdered<V>(ps: seq<Keyed<V>>)
    ensures multiset(SortByKey(ps)) == multiset(ps)
    ensures Ordered(Keys(SortByKey(ps)))
  {
    if ps != [] {
      SortIsOrdered(ps[1..]);
      InsertOrdered(ps[0], SortByKey(ps[1..]));
      InsertMembers(ps[0], SortByKey(ps[1..]));
      assert ps == [ps[0]] + ps[1..];
    }
  }

  lemma DistinctTail(a: seq<Text>)
    requires Distinct(a) && a != []
    ensures Distinct(a[1..]) && a[0] !in a[1..]
  {
    assert forall k :: 0 < k < |a| ==> a[1..][k - 1] == a[k];
  }

  lemma {:induction false} InsertDistinct<V>(p: Keyed<V>, ps: seq<Keyed<V>>)
    requires Distinct(Keys(ps)) && p.key !in Keys(ps)
    ensures Distinct(Keys(Insert(p, ps)))
    ensures forall k :: k in Keys(Insert(p, ps)) <==> k == p.key || k in Keys(ps)
  {
    if ps == [] || Leq(p.key, ps[0].key) {
      assert Keys([p] + ps) == [p.key] + Keys(ps);
    } else {
      DistinctTail(Keys(ps));
      assert Keys(ps) == [ps[0].key] + Keys(ps[1..]);
      assert Keys(ps)[1..] == Keys(ps[1..]);
      InsertDistinct(p, ps[1..]);
      assert Keys([ps[0]] + Insert(p, ps[1..])) == [ps[0].key] + Keys(Insert(p, ps[1..]));
    }
  }

  lemma {:induction false} SortDistinct<V>(ps: seq<Keyed<V>>)
    requires Distinct(Keys(ps))
    ensures Distinct(Keys(SortByKey(ps)))
    ensures forall k :: k in Keys(SortByKey(ps)) <==> k in Keys(ps)
  {
    if ps != [] {
      DistinctTail(Keys(ps));
      assert Keys(ps) == [ps[0].key] + Keys(ps[1..]);
      assert Keys(ps)[1..] == Keys(ps[1..]);
      SortDistinct(ps[1..]);
      InsertDistinct(ps[0], SortByKey(ps[1..]));
    }
  }

  /** Each earlier key comes before each later one. */
  ghost predicate OrderedBy(before: (Text, Text) -> bool, keys: seq<Text>) {
    forall i, j :: 0 <= i < j < |keys| ==> before(keys[i], keys[j])
  }

  /** A set of keys has one enumeration in a given order. */
  lemma {:induction false} OrderedUnique(before: (Text, Text) -> bool, a: seq<Text>, b: seq<Text>)
    requires forall x, y :: before(x, y) && before(y, x) ==> x == y
    requires OrderedBy(before, a) && Distinct(a) && OrderedBy(before, b) && Distinct(b)
    requires forall k :: k in a <==> k in b
    ensures a == b
  {
    assert a != [] ==> a[0] in b;
    assert b != [] ==> b[0] in a;
    if a != [] {
      var i :| 0 <= i < |a| && a[i] == b[0];
      var j :| 0 <= j < |b| && b[j] == a[0];
      forall k ensures k in a[1..] <==> k in b[1..] {
        TailMembers(a, k);
        TailMembers(b, k);
      }
      OrderedUnique(before, a[1..], b[1..]);
      assert a == [a[0]] + a[1..] && b == [b[0]] + b[1..];
    }
  }

  lemma SortedKeysUnique(a: seq<Text>, b: seq<Text>)
    requires Ordered(a) && Distinct(a) && Ordered(b) && Distinct(b)
    requires forall k :: k in a <==> k in b
    ensures a == b
  {
    forall x, y | Leq(x, y) && Leq(y, x) ensures x == y {
      LeqAntisymmetric(x, y);
    }
    OrderedUnique(Leq, a, b);
  }

  lemma TailMembers(a: seq<Text>, k: Text)
    requires a != [] && Distinct(a)
    ensures k in a[1..] <==> k in a && k != a[0]
  {
    assert a == [a[0]] + a[1..];
    if k in a[1..] {
      var i :| 0 <= i < |a[1..]| && a[1..][i] == k;
      assert a[0] != a[i + 1];
    }
  }

  lemma SortedIsPermutation<V>(ps: seq<Keyed<V>>)
    ensures forall p :: p in SortByKey(ps) <==> p in ps
  {
    SortIsOrdered(ps);
    assert forall p :: p in ps <==> p in multiset(ps);
    assert forall p :: p in SortByKey(ps) <==> p in multiset(SortByKey(ps));
  }

  /** Every key comes before or equals every later one, code unit by code unit. */
  predicate Ascending(keys: seq<Text>) {
    forall i, j :: 0 <= i < j < |keys| ==> NotAfter(keys[i], keys[j])
  }

  lemma OrderedIsAscending(keys: seq<Text>)
    ensures Ordered(keys) <==> Ascending(keys)
  {
    forall i, j | 0 <= i < j < |keys| ensures Leq(keys[i], keys[j]) <==> NotAfter(keys[i], keys[j]) {
      LeqIsUnitOrder(keys[i], keys[j]);
    }
    hide Leq, NotAfter;
  }

  /** Sorting by key permutes the properties and puts their keys in ascending order. */
  lemma SortOrders<V>(ps: seq<Keyed<V>>)
    ensures multiset(SortByKey(ps)) == multiset(ps)
    ensures Ascending(Keys(SortByKey(ps)))
  {
    SortIsOrdered(ps);
    OrderedIsAscending(Keys(SortByKey(ps)));
  }
}
