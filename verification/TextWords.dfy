/** What cleaning does to a text, unit by unit: an independent definition. */
module TextWords {
  import opened Utf16Text
  import opened TextClean

  /** What separates words: the controls and the white space of ECMAScript. */
  predicate Gap(c: CodeUnit) {
    || c <= 0x20 || c == 0x7F || c == 0xA0 || c == 0x1680 || (0x2000 <= c && c <= 0x200A)
    || c == 0x2028 || c == 0x2029 || c == 0x202F || c == 0x205F || c == 0x3000 || c == 0xFEFF
  }

  /** The other units in order, with one space wherever a gap lies between two of them. */
  function Respaced(s: Text): Text {
    if s == [] then []
    else
      var rest := Respaced(s[1..]);
      if Gap(s[0]) then rest
      else if rest != [] && Gap(s[1]) then [s[0], 0x20] + rest
      else [s[0]] + rest
  }

  lemma {:induction false} RespacedEnds(s: Text)
    ensures Respaced(s) == [] <==> forall c :: c in s ==> Gap(c)
    ensures Respaced(s) != [] ==> !Gap(Respaced(s)[0]) && !Gap(Respaced(s)[|Respaced(s)| - 1])
    ensures s != [] && !Gap(s[0]) ==> Respaced(s)[0] == s[0]
    decreases |s|
  {
    hide Gap;
    if s != [] {
      RespacedEnds(s[1..]);
      assert forall c :: c in s <==> c == s[0] || c in s[1..];
    }
  }

  function Pad(gap: bool): Text { if gap then [SPACE] else [] }

  /** Collapsing keeps those units, and one space at either end where there was a gap. */
  function Padded(s: Text): Text {
    if s == [] then []
    else if Respaced(s) == [] then [SPACE]
    else Pad(Gap(s[0])) + Respaced(s) + Pad(Gap(s[|s| - 1]))
  }

  lemma PaddedGap(s: Text)
    requires |s| > 1 && Gap(s[0])
    ensures Padded(s) == if Gap(s[1]) then Padded(s[1..]) else [SPACE] + Padded(s[1..])
  {
    var tail := s[1..];
    assert tail[|tail| - 1] == s[|s| - 1] && Respaced(s) == Respaced(tail);
    RespacedEnds(tail);
    hide Gap, Respaced;
    assert Padded(tail) == if Respaced(tail) == [] then [SPACE] else Pad(Gap(s[1])) + Respaced(tail) + Pad(Gap(s[|s| - 1]));
    if !Gap(s[1]) {
      assert s[1] in tail;
      assert [] + Respaced(tail) == Respaced(tail);
    }
  }

  lemma PaddedLast(s: Text)
    requires |s| > 1 && !Gap(s[0]) && Gap(s[1])
    ensures Padded(s) == [s[0]] + Padded(s[1..])
  {
    var tail := s[1..];
    RespacedEnds(tail);
    assert tail[|tail| - 1] == s[|s| - 1] && tail[|tail| - 1] in tail;
    var (rest, right) := (Respaced(tail), Pad(Gap(s[|s| - 1])));
    assert Respaced(s) == if rest == [] then [s[0]] + rest else [s[0], 0x20] + rest;
    assert Padded(s) == [] + Respaced(s) + right;
    hide Gap, Respaced;
    if rest != [] {
      PrefixTwo(s[0], rest, right);
    } else {
      assert [] + ([s[0]] + []) + [SPACE] == [s[0]] + [SPACE];
    }
    assert Padded(tail) == if rest == [] then [SPACE] else [SPACE] + rest + right;
    hide Padded;
  }

  lemma PrefixTwo(c: CodeUnit, rest: Text, right: Text)
    ensures [] + ([c, 0x20] + rest) + right == [c] + ([SPACE] + rest + right)
  {
    assert [c, 0x20] == [c] + [SPACE];
  }

  lemma PaddedInner(s: Text)
    requires |s| > 1 && !Gap(s[0]) && !Gap(s[1])
    ensures Padded(s) == [s[0]] + Padded(s[1..])
  {
    var tail := s[1..];
    RespacedEnds(tail);
    assert tail[|tail| - 1] == s[|s| - 1] && tail[0] in tail;
    var (rest, right) := (Respaced(tail), Pad(Gap(s[|s| - 1])));
    assert Respaced(s) == [s[0]] + rest && rest != [];
    assert Padded(s) == [] + Respaced(s) + right;
    assert Padded(tail) == [] + rest + right;
    hide Gap, Respaced, Padded;
    PrefixOne(s[0], rest, right);
  }

  lemma PrefixOne(c: CodeUnit, rest: Text, right: Text)
    ensures [] + ([c] + rest) + right == [c] + ([] + rest + right)
  {
  }

  lemma BlankUnit(s: Text, i: nat)
    requires i < |s|
    ensures White(Blank(s)[i]) <==> Gap(s[i])
    ensures !Gap(s[i]) ==> Blank(s)[i] == s[i]
  {
  }

  lemma {:induction false} CollapsePads(s: Text)
    ensures Collapse(Blank(s)) == Padded(s)
    decreases |s|
  {
    if s != [] {
      var b := Blank(s);
      assert b[1..] == Blank(s[1..]);
      CollapsePads(s[1..]);
      BlankUnit(s, 0);
      if |s| > 1 {
        BlankUnit(s, 1);
        hide Gap, White, Control, Padded;
        if Gap(s[0]) {
          PaddedGap(s);
        } else if Gap(s[1]) {
          PaddedLast(s);
        } else {
          PaddedInner(s);
        }
      } else {
        hide Gap, White, Control;
        assert Respaced(s[1..]) == [];
      }
    }
  }

  lemma TrimStartTo(left: Text, rest: Text)
    requires (left == [] || left == [SPACE]) && rest != [] && !White(rest[0])
    ensures TrimStart(left + rest) == rest
  {
    if left == [] {
      assert left + rest == rest;
    } else {
      assert (left + rest)[0] == SPACE && (left + rest)[1..] == rest;
    }
  }

  lemma TrimEndTo(body: Text, right: Text)
    requires (right == [] || right == [SPACE]) && body != [] && !White(body[|body| - 1])
    ensures TrimEnd(body + right) == body
  {
    if right == [] {
      assert body + right == body;
    } else {
      assert (body + right)[|body|] == SPACE && (body + right)[..|body|] == body;
    }
  }

  lemma TrimsTo(left: Text, body: Text, right: Text)
    requires body != [] && !White(body[0]) && !White(body[|body| - 1])
    requires (left == [] || left == [SPACE]) && (right == [] || right == [SPACE])
    ensures TrimEnd(TrimStart(left + body + right)) == body
  {
    hide TrimStart, TrimEnd, White;
    assert left + body + right == left + (body + right) && (body + right)[0] == body[0];
    TrimStartTo(left, body + right);
    TrimEndTo(body, right);
  }

  lemma WhiteIsGap(c: CodeUnit)
    ensures White(c) ==> Gap(c)
  {
  }

  lemma PaddingTrimmed(s: Text)
    ensures TrimEnd(TrimStart(Padded(s))) == Respaced(s)
  {
    RespacedEnds(s);
    if Respaced(s) == [] {
      assert TrimStart([SPACE]) == [];
    } else {
      hide TrimStart, TrimEnd, Respaced, Gap, White;
      var words := Respaced(s);
      WhiteIsGap(words[0]);
      WhiteIsGap(words[|words| - 1]);
      TrimsTo(Pad(Gap(s[0])), words, Pad(Gap(s[|s| - 1])));
    }
  }

  /** The words of a text with single spaces between them, cut to a length. */
  function Words(t: Text, max: nat): Text {
    if |Respaced(t)| <= max then Respaced(t) else Respaced(t)[..max]
  }

  /** Cleaning a text puts single spaces between its words and cuts the result. */
  lemma CleanRespaces(s: Text, max: nat)
    ensures Clean(s, max) == Words(s, max)
  {
    CollapsePads(s);
    PaddingTrimmed(s);
    hide Respaced, Collapse, TrimStart, TrimEnd, Padded, Blank;
  }

  lemma {:induction false} RespacedBeforeGap(s: Text, c: CodeUnit)
    requires Gap(c)
    ensures Respaced(s + [c]) == Respaced(s)
    decreases |s|
  {
    hide Gap;
    if s != [] {
      assert (s + [c])[1..] == s[1..] + [c];
      RespacedBeforeGap(s[1..], c);
    } else {
      assert [] + [c] == [c] && [c][1..] == [];
    }
  }

  lemma {:induction false} TrimKeepsWords(s: Text)
    ensures Respaced(TrimStart(s)) == Respaced(s) && Respaced(TrimEnd(s)) == Respaced(s)
    decreases |s|
  {
    if s != [] {
      if White(s[0]) {
        TrimKeepsWords(s[1..]);
      }
      var n := |s| - 1;
      if White(s[n]) {
        TrimKeepsWords(s[..n]);
        RespacedBeforeGap(s[..n], s[n]);
        assert s[..n] + [s[n]] == s;
      }
    }
  }

  /** A standing template's text is its words with single spaces between them, never cut. */
  lemma TemplateRespaces(s: Text)
    requires forall c :: c in s ==> !Control(c)
    ensures TemplateText(s) == Respaced(s)
  {
    var front := TrimStart(s);
    var t := TrimEnd(front);
    TrimKeepsWords(s);
    TrimKeepsWords(front);
    TrimmedStart(s);
    TrimmedEnd(front);
    assert forall i :: 0 <= i < |t| ==> t[i] == front[i] && front[i] in front;
    CollapseTrimmed(t);
    hide Respaced, Collapse, TrimStart, TrimEnd, Gap, White, Control;
  }

  lemma CollapseTrimmed(t: Text)
    requires forall i :: 0 <= i < |t| ==> !Control(t[i])
    requires t != [] ==> !White(t[0]) && !White(t[|t| - 1])
    ensures Collapse(t) == Respaced(t)
  {
    BlankTidy(t);
    CollapsePads(t);
    if t != [] {
      assert !Gap(t[0]) && !Gap(t[|t| - 1]);
      hide Gap, Respaced, White, Control;
      RespacedEnds(t);
      assert t[0] in t;
      assert [] + Respaced(t) + [] == Respaced(t);
    }
  }
}
