/** Cleaning a text field: controls and runs of white space become one space, then trim, then cut. */
module TextClean {
  import opened Utf16Text

  const SPACE: CodeUnit := 0x20

  predicate Control(c: CodeUnit) {
    c <= 0x1F || c == 0x7F
  }

  /** The white space of ECMAScript's `\s` and `trim`. */
  predicate White(c: CodeUnit) {
    || 0x09 <= c <= 0x0D || c == 0x20 || c == 0xA0 || c == 0x1680 || 0x2000 <= c <= 0x200A
    || c == 0x2028 || c == 0x2029 || c == 0x202F || c == 0x205F || c == 0x3000 || c == 0xFEFF
  }

  function Blank(s: Text): (r: Text)
    ensures |r| == |s|
  {
    seq(|s|, i requires 0 <= i < |s| => if Control(s[i]) then SPACE else s[i])
  }

  /** Replaces every maximal run of white space by one space. */
  function Collapse(s: Text): Text {
    if s == [] then []
    else if !White(s[0]) then [s[0]] + Collapse(s[1..])
    else if |s| > 1 && White(s[1]) then Collapse(s[1..])
    else [SPACE] + Collapse(s[1..])
  }

  function TrimStart(s: Text): Text {
    if s != [] && White(s[0]) then TrimStart(s[1..]) else s
  }

  function TrimEnd(s: Text): Text {
    if s != [] && White(s[|s| - 1]) then TrimEnd(s[..|s| - 1]) else s
  }

  function Cut(s: Text, max: nat): Text {
    if |s| <= max then s else s[..max]
  }

  function Clean(s: Text, max: nat): Text {
    Cut(TrimEnd(TrimStart(Collapse(Blank(s)))), max)
  }

  /** No control, no white space but single spaces, none at the front. */
  predicate Tidy(s: Text) {
    && (forall i :: 0 <= i < |s| ==> !Control(s[i]) && (White(s[i]) ==> s[i] == SPACE))
    && (forall i :: 0 <= i < |s| - 1 ==> !(s[i] == SPACE && s[i + 1] == SPACE))
    && (s != [] ==> s[0] != SPACE)
  }

  predicate EndsInSpace(s: Text) {
    s != [] && s[|s| - 1] == SPACE
  }

  predicate Spaced(s: Text) {
    && (forall i :: 0 <= i < |s| ==> !Control(s[i]) && (White(s[i]) ==> s[i] == SPACE))
    && (forall i :: 0 <= i < |s| - 1 ==> !(s[i] == SPACE && s[i + 1] == SPACE))
  }

  lemma {:induction false} CollapseSpaces(s: Text)
    requires forall i :: 0 <= i < |s| ==> !Control(s[i])
    ensures Spaced(Collapse(s))
    ensures s != [] ==> Collapse(s) != [] && (Collapse(s)[0] == SPACE <==> White(s[0]))
    decreases |s|
  {
    if s != [] {
      CollapseSpaces(s[1..]);
      var rest := Collapse(s[1..]);
      if s[1..] == [] {
        assert rest == [];
      }
      if !White(s[0]) {
        assert Collapse(s) == [s[0]] + rest;
      } else if |s| == 1 || !White(s[1]) {
        assert Collapse(s) == [SPACE] + rest;
      }
    }
  }

  /** Trimming a spaced text takes at most one space off each end. */
  lemma TrimSpaced(s: Text)
    requires Spaced(s)
    ensures TrimStart(s) == if s != [] && s[0] == SPACE then s[1..] else s
    ensures TrimEnd(s) == if EndsInSpace(s) then s[..|s| - 1] else s
  {
    if s != [] && s[0] == SPACE && |s| > 1 {
      assert s[1] != SPACE;
    }
    if EndsInSpace(s) && |s| > 1 {
      var front := s[..|s| - 1];
      assert front[|front| - 1] == s[|s| - 2] != SPACE;
    }
  }

  lemma {:induction false} CollapseTidy(s: Text)
    requires Spaced(s)
    ensures Collapse(s) == s
    decreases |s|
  {
    if s != [] {
      CollapseTidy(s[1..]);
    }
  }

  lemma BlankTidy(s: Text)
    requires forall i :: 0 <= i < |s| ==> !Control(s[i])
    ensures Blank(s) == s
  {
  }

  /** A cleaned text is tidy, no longer than allowed, and ends in a space only when it was cut there. */
  lemma CleanIsTidy(s: Text, max: nat)
    ensures Tidy(Clean(s, max)) && |Clean(s, max)| <= max
    ensures EndsInSpace(Clean(s, max)) ==> |Clean(s, max)| == max
  {
    var spaced := Collapse(Blank(s));
    CollapseSpaces(Blank(s));
    TrimSpaced(spaced);
    var front := TrimStart(spaced);
    assert Spaced(front);
    TrimSpaced(front);
  }

  /** A tidy text is left alone but for a space at its end. */
  lemma CleanTidy(s: Text, max: nat)
    requires Tidy(s) && |s| <= max
    ensures Clean(s, max) == if EndsInSpace(s) then s[..|s| - 1] else s
  {
    BlankTidy(s);
    CollapseTidy(s);
    TrimSpaced(s);
  }

  /** Cleaning twice gives the same text exactly when the first cut did not end in a space. */
  lemma CleanTwiceExactly(s: Text, max: nat)
    ensures Clean(Clean(s, max), max) == Clean(s, max) <==> !EndsInSpace(Clean(s, max))
    ensures EndsInSpace(Clean(s, max)) ==> Clean(Clean(s, max), max) == Clean(s, max)[..|Clean(s, max)| - 1]
  {
    CleanIsTidy(s, max);
    CleanTidy(Clean(s, max), max);
  }

  /** The second cleaning is a fixed point: nothing changes from the third on. */
  lemma CleanSettles(s: Text, max: nat)
    ensures Clean(Clean(Clean(s, max), max), max) == Clean(Clean(s, max), max)
  {
    CleanIsTidy(s, max);
    CleanTidy(Clean(s, max), max);
    var twice := Clean(Clean(s, max), max);
    CleanIsTidy(Clean(s, max), max);
    CleanTidy(twice, max);
    assert !EndsInSpace(twice);
  }

  /** Cutting "a b" at two units leaves a space that the next cleaning drops. */
  lemma CleaningIsNotIdempotent()
    ensures Clean([0x61, 0x20, 0x62], 2) == [0x61, 0x20]
    ensures Clean(Clean([0x61, 0x20, 0x62], 2), 2) == [0x61]
  {
    var s: Text := [0x61, 0x20, 0x62];
    BlankTidy(s);
    CollapseTidy(s);
    TrimSpaced(s);
    assert Clean(s, 2) == [0x61, 0x20];
    CleanTidy([0x61, 0x20], 2);
  }

  // ----- the title of a standing template

  /** A standing policy trims first, then collapses, and never cuts: it refuses longer texts instead. */
  function TemplateText(s: Text): Text {
    Collapse(TrimEnd(TrimStart(s)))
  }

  lemma {:induction false} CollapseShortens(s: Text)
    ensures |Collapse(s)| <= |s|
    ensures s != [] && !White(s[|s| - 1]) ==> Collapse(s) != [] && Collapse(s)[|Collapse(s)| - 1] == s[|s| - 1]
    decreases |s|
  {
    if s != [] {
      CollapseShortens(s[1..]);
    }
  }

  lemma {:induction false} TrimmedStart(s: Text)
    ensures |TrimStart(s)| <= |s| && forall c :: c in TrimStart(s) ==> c in s
    ensures TrimStart(s) != [] ==> !White(TrimStart(s)[0])
    decreases |s|
  {
    if s != [] && White(s[0]) {
      TrimmedStart(s[1..]);
    }
  }

  lemma {:induction false} TrimmedEnd(s: Text)
    ensures TrimEnd(s) <= s
    ensures TrimEnd(s) != [] ==> !White(TrimEnd(s)[|TrimEnd(s)| - 1])
    decreases |s|
  {
    if s != [] && White(s[|s| - 1]) {
      TrimmedEnd(s[..|s| - 1]);
    }
  }

  /** Preparing a task from a standing template leaves its text exactly as it was approved. */
  lemma TemplateSurvivesCleaning(s: Text, max: nat)
    requires |s| <= max && forall c :: c in s ==> !Control(c)
    ensures Clean(TemplateText(s), max) == TemplateText(s)
  {
    var front := TrimStart(s);
    TrimmedStart(s);
    TrimmedEnd(front);
    var trimmed := TrimEnd(front);
    assert forall i :: 0 <= i < |trimmed| ==> trimmed[i] == front[i];
    assert forall i :: 0 <= i < |trimmed| ==> trimmed[i] in front;
    CollapseSpaces(trimmed);
    CollapseShortens(trimmed);
    CleanTidy(TemplateText(s), max);
  }
}
