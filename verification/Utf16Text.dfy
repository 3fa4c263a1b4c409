/** JavaScript strings are sequences of 16-bit code units. */
module Utf16Text {
  type CodeUnit = u: int | 0 <= u < 0x1_0000
  type Text = seq<CodeUnit>

  const QUOTE: CodeUnit := 0x22
  const COMMA: CodeUnit := 0x2c
  const COLON: CodeUnit := 0x3a
  const BACKSLASH: CodeUnit := 0x5c
  const LBRACKET: CodeUnit := 0x5b
  const RBRACKET: CodeUnit := 0x5d
  const LBRACE: CodeUnit := 0x7b
  const RBRACE: CodeUnit := 0x7d

  /** The code units of a literal. */
  function Letters(s: string): Text {
    seq(|s|, i requires 0 <= i < |s| => s[i] as int % 0x1_0000)
  }

  predicate IsHigh(u: CodeUnit) { 0xd800 <= u < 0xdc00 }

  predicate IsLow(u: CodeUnit) { 0xdc00 <= u < 0xe000 }

  /** Every surrogate is half of a pair, so the text survives conversion to UTF-8. */
  predicate WellFormed(t: Text) {
    if t == [] then true
    else if IsHigh(t[0]) then |t| > 1 && IsLow(t[1]) && WellFormed(t[2..])
    else !IsLow(t[0]) && WellFormed(t[1..])
  }

  lemma {:induction false} WellFormedConcat(a: Text, b: Text)
    requires WellFormed(a) && WellFormed(b)
    ensures WellFormed(a + b)
  {
    if a == [] {
      assert a + b == b;
    } else if IsHigh(a[0]) {
      WellFormedConcat(a[2..], b);
      assert (a + b)[2..] == a[2..] + b;
    } else {
      WellFormedConcat(a[1..], b);
      assert (a + b)[1..] == a[1..] + b;
    }
  }

  /** The order Array.prototype.sort uses on strings: code unit by code unit. */
  predicate Leq(a: Text, b: Text) {
    if a == [] then true
    else if b == [] then false
    else if a[0] != b[0] then a[0] < b[0]
    else Leq(a[1..], b[1..])
  }

  lemma {:induction false} LeqTotal(a: Text, b: Text)
    ensures Leq(a, b) || Leq(b, a)
  {
    if a != [] && b != [] && a[0] == b[0] {
      LeqTotal(a[1..], b[1..]);
    }
  }

  lemma {:induction false} LeqAntisymmetric(a: Text, b: Text)
    requires Leq(a, b) && Leq(b, a)
    ensures a == b
  {
    if a != [] {
      LeqAntisymmetric(a[1..], b[1..]);
      assert a == [a[0]] + a[1..];
      assert b == [b[0]] + b[1..];
    }
  }

  lemma {:induction false} LeqTransitive(a: Text, b: Text, c: Text)
    requires Leq(a, b) && Leq(b, c)
    ensures Leq(a, c)
  {
    if a != [] && a[0] == b[0] && b[0] == c[0] {
      LeqTransitive(a[1..], b[1..], c[1..]);
    }
  }

  /** Code unit by code unit: they agree up to some place, where the first text ends or its unit is the smaller one. */
  predicate NotAfter(a: Text, b: Text) {
    exists k :: 0 <= k <= |a| && NotAfterAt(a, b, k)
  }

  predicate NotAfterAt(a: Text, b: Text, k: nat)
    requires k <= |a|
  {
    && k <= |b| && (forall i :: 0 <= i < k ==> a[i] == b[i])
    && (k == |a| || (k < |b| && a[k] < b[k]))
  }

  lemma {:induction false} LeqIsUnitOrder(a: Text, b: Text)
    ensures Leq(a, b) <==> NotAfter(a, b)
    decreases |a|
  {
    if a == [] {
      assert NotAfterAt(a, b, 0);
    } else if b != [] {
      LeqIsUnitOrder(a[1..], b[1..]);
      if a[0] < b[0] {
        assert NotAfterAt(a, b, 0);
      } else if a[0] == b[0] {
        if NotAfter(a[1..], b[1..]) {
          var k :| 0 <= k <= |a[1..]| && NotAfterAt(a[1..], b[1..], k);
          assert forall i :: 0 < i < k + 1 ==> a[i] == a[1..][i - 1] && b[i] == b[1..][i - 1];
          assert NotAfterAt(a, b, k + 1);
        }
        if NotAfter(a, b) {
          var k :| 0 <= k <= |a| && NotAfterAt(a, b, k);
          assert NotAfterAt(a[1..], b[1..], k - 1);
        }
      }
    }
  }
}
