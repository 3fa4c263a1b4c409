/** Which entry names an office archive may hold, in terms of characters and path segments. */
module ZipNames {
  import opened Wrappers
  import opened ZipFormat

  // ----- UTF-8 (RFC 3629, section 3)

  /** A Unicode scalar value. */
  predicate Scalar(c: int) { 0 <= c < 0xd800 || 0xe000 <= c < 0x11_0000 }

  function EncodeScalar(c: int): Bytes
    requires Scalar(c)
  {
    if c < 0x80 then [c]
    else if c < 0x800 then [0xc0 + c / 0x40, 0x80 + c % 0x40]
    else if c < 0x1_0000 then [0xe0 + c / 0x1000, 0x80 + c / 0x40 % 0x40, 0x80 + c % 0x40]
    else [0xf0 + c / 0x4_0000, 0x80 + c / 0x1000 % 0x40, 0x80 + c / 0x40 % 0x40, 0x80 + c % 0x40]
  }

  predicate Scalars(text: seq<int>) { forall c :: c in text ==> Scalar(c) }

  function Encode(text: seq<int>): Bytes
    requires Scalars(text)
  {
    if text == [] then [] else EncodeScalar(text[0]) + Encode(text[1..])
  }

  lemma EncodedScalarIsValid(c: int, rest: Bytes)
    requires Scalar(c)
    ensures ValidUtf8(EncodeScalar(c) + rest) <==> ValidUtf8(rest)
  {
    var s := EncodeScalar(c) + rest;
    assert s[|EncodeScalar(c)|..] == rest;
    ScalarBytes(c);
  }

  /** The bytes after the first are continuations, and the first says how many there are. */
  lemma ScalarBytes(c: int)
    requires Scalar(c)
    ensures forall k :: 0 < k < |EncodeScalar(c)| ==> IsContinuation(EncodeScalar(c)[k])
    ensures var e := EncodeScalar(c);
            if c < 0x80 then |e| == 1 && e[0] < 0x80
            else if c < 0x800 then |e| == 2 && 0xc2 <= e[0] < 0xe0
            else if c < 0x1_0000 then |e| == 3 && 0xe0 <= e[0] < 0xf0 && (e[0] == 0xe0 ==> e[1] >= 0xa0) && (e[0] == 0xed ==> e[1] < 0xa0)
            else |e| == 4 && 0xf0 <= e[0] < 0xf5 && (e[0] == 0xf0 ==> e[1] >= 0x90) && (e[0] == 0xf4 ==> e[1] < 0x90)
  {
  }

  lemma {:induction false} EncodedIsValid(text: seq<int>)
    requires Scalars(text)
    ensures ValidUtf8(Encode(text))
    decreases |text|
  {
    if text != [] {
      EncodedIsValid(text[1..]);
      EncodedScalarIsValid(text[0], Encode(text[1..]));
    }
  }

  /** The first character of a valid text, and the rest. */
  lemma FirstScalar(s: Bytes) returns (c: int, rest: Bytes)
    requires s != [] && ValidUtf8(s)
    ensures Scalar(c) && s == EncodeScalar(c) + rest && ValidUtf8(rest) && |rest| < |s|
  {
    var a: int := s[0];
    if a < 0x80 {
      c, rest := a, s[1..];
    } else if a < 0xe0 {
      var b: int := s[1];
      c, rest := (a - 0xc0) * 0x40 + (b - 0x80), s[2..];
      assert EncodeScalar(c) == s[..2];
    } else if a < 0xf0 {
      var b: int, d: int := s[1], s[2];
      c, rest := (a - 0xe0) * 0x1000 + (b - 0x80) * 0x40 + (d - 0x80), s[3..];
      ThreeBytes(a - 0xe0, b - 0x80, d - 0x80);
      assert EncodeScalar(c) == s[..3];
    } else {
      var b: int, d: int, e: int := s[1], s[2], s[3];
      c, rest := (a - 0xf0) * 0x4_0000 + (b - 0x80) * 0x1000 + (d - 0x80) * 0x40 + (e - 0x80), s[4..];
      FourBytes(a - 0xf0, b - 0x80, d - 0x80, e - 0x80);
      assert EncodeScalar(c) == s[..4];
    }
  }

  lemma ThreeBytes(x: int, y: int, z: int)
    requires 0 <= x < 16 && 0 <= y < 0x40 && 0 <= z < 0x40
    ensures var c := x * 0x1000 + y * 0x40 + z; c / 0x1000 == x && c / 0x40 % 0x40 == y && c % 0x40 == z
  {
    var c := x * 0x1000 + y * 0x40 + z;
    assert c / 0x40 == x * 0x40 + y;
  }

  lemma FourBytes(w: int, x: int, y: int, z: int)
    requires 0 <= w < 5 && 0 <= x < 0x40 && 0 <= y < 0x40 && 0 <= z < 0x40
    ensures var c := w * 0x4_0000 + x * 0x1000 + y * 0x40 + z;
            c / 0x4_0000 == w && c / 0x1000 % 0x40 == x && c / 0x40 % 0x40 == y && c % 0x40 == z
  {
    var c := w * 0x4_0000 + x * 0x1000 + y * 0x40 + z;
    assert c / 0x40 == w * 0x1000 + x * 0x40 + y;
    assert c / 0x1000 == w * 0x40 + x;
  }

  lemma {:induction false} ValidIsEncoded(s: Bytes) returns (text: seq<int>)
    requires ValidUtf8(s)
    ensures Scalars(text) && Encode(text) == s
    decreases |s|
  {
    if s == [] {
      text := [];
    } else {
      var c, rest := FirstScalar(s);
      var tail := ValidIsEncoded(rest);
      text := [c] + tail;
      assert text[1..] == tail;
    }
  }

  predicate MarkAt(s: Bytes, i: nat) {
    i + 3 <= |s| && s[i] == 0xef && s[i + 1] == 0xbf && s[i + 2] == 0xbd
  }

  ghost predicate Marked(s: Bytes) { exists i: nat :: MarkAt(s, i) }

  lemma MarkBefore(first: Bytes, rest: Bytes)
    requires Marked(rest)
    ensures Marked(first + rest)
  {
    var i: nat :| MarkAt(rest, i);
    assert MarkAt(first + rest, i + |first|);
  }

  lemma MarkOfCharacter(rest: Bytes)
    ensures Marked(EncodeScalar(0xfffd) + rest)
  {
    var first := EncodeScalar(0xfffd);
    assert first == [0xef, 0xbf, 0xbd];
    assert MarkAt(first + rest, 0);
  }

  lemma MarkAfter(c: int, rest: Bytes)
    requires Scalar(c) && c != 0xfffd && Marked(EncodeScalar(c) + rest)
    ensures Marked(rest)
  {
    var i: nat :| MarkAt(EncodeScalar(c) + rest, i);
    MarkInRest(c, rest, i);
  }

  /** The bytes of U+FFFD stand in an encoded text exactly where that character does. */
  lemma {:induction false} MarkIsCharacter(text: seq<int>)
    requires Scalars(text)
    ensures 0xfffd in text <==> Marked(Encode(text))
    decreases |text|
  {
    if text != [] {
      var (c, tail) := (text[0], text[1..]);
      MarkIsCharacter(tail);
      assert 0xfffd in text <==> 0xfffd == c || 0xfffd in tail;
      hide Marked, EncodeScalar;
      if c == 0xfffd {
        MarkOfCharacter(Encode(tail));
      } else {
        if Marked(Encode(text)) {
          MarkAfter(c, Encode(tail));
        }
        if Marked(Encode(tail)) {
          MarkBefore(EncodeScalar(c), Encode(tail));
        }
      }
    }
  }

  lemma MarkInRest(c: int, rest: Bytes, i: nat)
    requires Scalar(c) && c != 0xfffd && MarkAt(EncodeScalar(c) + rest, i)
    ensures i >= |EncodeScalar(c)| && MarkAt(rest, i - |EncodeScalar(c)|)
  {
    var first := EncodeScalar(c);
    var s := first + rest;
    if i < |first| {
      MarkStarts(c, rest, i);
      EncodesMark(c, s);
    }
    assert forall k :: |first| <= k < |s| ==> s[k] == rest[k - |first|];
  }

  lemma MarkStarts(c: int, rest: Bytes, i: nat)
    requires Scalar(c) && MarkAt(EncodeScalar(c) + rest, i) && i < |EncodeScalar(c)|
    ensures i == 0
  {
    ScalarBytes(c);
    assert (EncodeScalar(c) + rest)[i] == EncodeScalar(c)[i];
  }

  lemma NoMark(text: seq<int>, i: nat)
    requires Scalars(text) && 0xfffd !in text
    ensures !MarkAt(Encode(text), i)
  {
    MarkIsCharacter(text);
  }

  lemma EncodesMark(c: int, s: Bytes)
    requires Scalar(c) && EncodeScalar(c) <= s && MarkAt(s, 0)
    ensures c == 0xfffd
  {
    ScalarBytes(c);
    var e := EncodeScalar(c);
    assert forall k :: 0 <= k < |e| ==> s[k] == e[k];
  }

  /** The name is the UTF-8 form of a text without U+FFFD. */
  ghost predicate Decodes(name: Bytes) {
    exists text: seq<int> :: Scalars(text) && 0xfffd !in text && Encode(text) == name
  }

  lemma DecodesExactly(name: Bytes)
    ensures !HasReplacement(name) <==> Decodes(name)
  {
    if Decodes(name) {
      var text: seq<int> :| Scalars(text) && 0xfffd !in text && Encode(text) == name;
      EncodedIsValid(text);
      forall i: nat | i + 3 <= |name| ensures !(name[i] == 0xef && name[i + 1] == 0xbf && name[i + 2] == 0xbd) {
        NoMark(text, i);
      }
    } else if ValidUtf8(name) {
      var text := ValidIsEncoded(name);
      MarkIsCharacter(text);
      if Marked(name) {
        var i: nat :| MarkAt(name, i);
        assert HasReplacement(name);
      }
    }
  }

  // ----- path segments

  /** The text's bytes are the characters' codes. */
  predicate Spells(t: Bytes, s: string) {
    |t| == |s| && forall k :: 0 <= k < |t| ==> t[k] as int == s[k] as int
  }

  /** The same, for a lower-case text, letters in either case. */
  predicate SpellsAnyCase(t: Bytes, s: string) {
    |t| == |s| && forall k :: 0 <= k < |t| ==>
      t[k] as int == s[k] as int || ('a' <= s[k] <= 'z' && t[k] as int == s[k] as int - 32)
  }

  predicate EndsAnyCase(t: Bytes, s: string) {
    |t| >= |s| && SpellsAnyCase(t[|t| - |s|..], s)
  }

  predicate Plain(s: string) { forall k :: 0 <= k < |s| ==> s[k] < 128 as char && !('A' <= s[k] <= 'Z') }

  lemma AsciiSpells(t: Bytes, s: string)
    requires forall k :: 0 <= k < |s| ==> s[k] < 128 as char
    ensures t == Ascii(s) <==> Spells(t, s)
  {
  }

  lemma LowerSpells(t: Bytes, s: string)
    requires Plain(s)
    ensures Lower(t) == Ascii(s) <==> SpellsAnyCase(t, s)
  {
    if Lower(t) == Ascii(s) {
      forall k | 0 <= k < |t| ensures t[k] as int == s[k] as int || ('a' <= s[k] <= 'z' && t[k] as int == s[k] as int - 32) {
        assert Lower(t)[k] == Ascii(s)[k];
      }
    }
    if SpellsAnyCase(t, s) {
      forall k | 0 <= k < |t| ensures Lower(t)[k] == Ascii(s)[k] {
      }
    }
  }

  lemma EndsSpells(t: Bytes, s: string)
    requires Plain(s)
    ensures EndsWith(Lower(t), Ascii(s)) <==> EndsAnyCase(t, s)
  {
    if |t| >= |s| {
      LowerSpells(t[|t| - |s|..], s);
      assert Lower(t)[|t| - |s|..] == Lower(t[|t| - |s|..]);
    }
  }

  function Joined(parts: seq<Bytes>): Bytes {
    if parts == [] then []
    else if |parts| == 1 then parts[0]
    else parts[0] + [0x2f] + Joined(parts[1..])
  }

  /** The name is those parts, without slashes, joined by slashes. */
  predicate SplitsInto(name: Bytes, parts: seq<Bytes>) {
    parts != [] && (forall p :: p in parts ==> 0x2f !in p) && Joined(parts) == name
  }

  lemma JoinedSlash(parts: seq<Bytes>)
    requires parts != []
    ensures Joined([[]] + parts) == [0x2f] + Joined(parts)
  {
    assert ([[]] + parts)[1..] == parts;
    assert [] + [0x2f] + Joined(parts) == [0x2f] + Joined(parts);
  }

  lemma JoinedCons(c: Byte, parts: seq<Bytes>)
    requires parts != []
    ensures Joined([[c] + parts[0]] + parts[1..]) == [c] + Joined(parts)
  {
    var (head, tail) := ([c] + parts[0], parts[1..]);
    if tail != [] {
      assert ([head] + tail)[1..] == tail;
      JoinedMore(head, tail);
      JoinedMore(parts[0], tail);
      assert [parts[0]] + tail == parts;
      hide Joined;
      Regroup([c], parts[0], [0x2f] + Joined(tail));
    }
  }

  lemma JoinedMore(head: Bytes, tail: seq<Bytes>)
    requires tail != []
    ensures Joined([head] + tail) == head + ([0x2f] + Joined(tail))
  {
    assert ([head] + tail)[1..] == tail;
    assert head + [0x2f] + Joined(tail) == head + ([0x2f] + Joined(tail));
  }

  lemma Regroup(a: Bytes, b: Bytes, c: Bytes)
    ensures a + b + c == a + (b + c)
  {
  }

  lemma {:induction false} SegmentsSplit(name: Bytes)
    ensures SplitsInto(name, Segments(name))
    decreases |name|
  {
    if name != [] {
      var rest := Segments(name[1..]);
      SegmentsSplit(name[1..]);
      JoinedCons(name[0], rest);
      JoinedSlash(rest);
      assert name == [name[0]] + name[1..];
      if name[0] != SLASH {
        var parts := [[name[0]] + rest[0]] + rest[1..];
        forall p | p in parts ensures 0x2f !in p {
          if p != parts[0] { assert p in rest[1..]; }
        }
      }
    }
  }

  function FirstSlash(name: Bytes): nat {
    if name == [] || name[0] == 0x2f then 0 else 1 + FirstSlash(name[1..])
  }

  lemma {:induction false} SlashAfter(p: Bytes, rest: Bytes)
    requires 0x2f !in p
    ensures FirstSlash(p) == |p| && FirstSlash(p + ([0x2f] + rest)) == |p|
    decreases |p|
  {
    if p == [] {
      assert p + ([0x2f] + rest) == [0x2f] + rest;
    } else {
      assert p[0] in p;
      assert (p + ([0x2f] + rest))[1..] == p[1..] + ([0x2f] + rest);
      SlashAfter(p[1..], rest);
    }
  }

  /** The first part ends at the first slash, or is the whole name. */
  lemma FirstPart(name: Bytes, parts: seq<Bytes>)
    requires SplitsInto(name, parts)
    ensures |parts[0]| == FirstSlash(name) <= |name| && parts[0] == name[..FirstSlash(name)]
    ensures |parts| == 1 <==> FirstSlash(name) == |name|
    ensures |parts| > 1 ==> SplitsInto(name[FirstSlash(name) + 1..], parts[1..])
  {
    var p := parts[0];
    assert p in parts;
    if |parts| > 1 {
      var rest := Joined(parts[1..]);
      assert p + [0x2f] + rest == p + ([0x2f] + rest);
      SlashAfter(p, rest);
      assert name[|p| + 1..] == rest;
    } else {
      SlashAfter(p, []);
      assert p == name;
    }
  }

  /** There is only one way to split a name. */
  lemma {:induction false} OneSplit(name: Bytes, a: seq<Bytes>, b: seq<Bytes>)
    requires SplitsInto(name, a) && SplitsInto(name, b)
    ensures a == b
    decreases |a|
  {
    FirstPart(name, a);
    FirstPart(name, b);
    if |a| > 1 {
      OneSplit(name[FirstSlash(name) + 1..], a[1..], b[1..]);
      assert a == [a[0]] + a[1..] && b == [b[0]] + b[1..];
    } else {
      assert a == [a[0]] && b == [b[0]];
    }
  }

  // ----- admissible names

  /** A part that climbs or stays. */
  predicate Dots(part: Bytes) { Spells(part, ".") || Spells(part, "..") }

  /** A file an office program would run. */
  predicate Runnable(part: Bytes) {
    SpellsAnyCase(part, "vbaproject.bin") || EndsAnyCase(part, ".exe") || EndsAnyCase(part, ".dll")
  }

  predicate Embedding(part: Bytes) {
    SpellsAnyCase(part, "activex") || SpellsAnyCase(part, "embeddings")
  }

  predicate PartsFit(parts: seq<Bytes>)
    requires parts != []
  {
    var last := parts[|parts| - 1];
    && (forall p :: p in parts ==> !Dots(p)) && !Runnable(last)
    && ((exists k :: 0 <= k < |parts| - 1 && Embedding(parts[k])) ==> last == [])
  }

  /**
   * A decodable name without backslash or NUL that is not absolute, does not
   * climb, is no program or macro project, and lies in no folder of embedded
   * objects unless it is a folder.
   */
  ghost predicate NameFits(name: Bytes) {
    && name != [] && Decodes(name) && 0x5c !in name && 0 !in name && name[0] != 0x2f
    && exists parts :: SplitsInto(name, parts) && PartsFit(parts)
  }

  lemma DotsExactly(parts: seq<Bytes>)
    ensures (forall p :: p in parts ==> !Dots(p)) <==> Ascii("..") !in parts && Ascii(".") !in parts
  {
    forall p | p in parts ensures Dots(p) <==> p == Ascii(".") || p == Ascii("..") {
      AsciiSpells(p, ".");
      AsciiSpells(p, "..");
    }
    hide Dots;
    AsciiSpells(Ascii("."), ".");
    AsciiSpells(Ascii(".."), "..");
  }

  lemma PartsExactly(name: Bytes)
    requires name != []
    ensures PartsFit(Segments(name)) <==>
              && Ascii("..") !in Segments(name) && Ascii(".") !in Segments(name) && !IsActiveContent(name)
              && (InEmbeddedFolder(name) ==> name[|name| - 1] == SLASH)
  {
    hide Dots, Runnable, Embedding, IsActiveContent, InEmbeddedFolder, Ascii, Segments;
    DotsExactly(Segments(name));
    RunnableExactly(name);
    EmbeddedExactly(name);
    LastPart(name);
  }

  lemma RunnableExactly(name: Bytes)
    ensures Runnable(Segments(name)[|Segments(name)| - 1]) <==> IsActiveContent(name)
  {
    var last := Segments(name)[|Segments(name)| - 1];
    LowerSpells(last, "vbaproject.bin");
    EndsSpells(last, ".exe");
    EndsSpells(last, ".dll");
    hide SpellsAnyCase, EndsAnyCase, Lower, EndsWith;
  }

  lemma EmbeddedExactly(name: Bytes)
    ensures InEmbeddedFolder(name) <==> exists k :: 0 <= k < |Segments(name)| - 1 && Embedding(Segments(name)[k])
  {
    var parts := Segments(name);
    var folders := parts[..|parts| - 1];
    forall k | 0 <= k < |folders|
      ensures Embedding(parts[k]) <==> Lower(folders[k]) == Ascii("activex") || Lower(folders[k]) == Ascii("embeddings")
    {
      LowerSpells(folders[k], "activex");
      LowerSpells(folders[k], "embeddings");
    }
    hide Lower, SpellsAnyCase, Segments, Embedding;
    if exists k :: 0 <= k < |parts| - 1 && Embedding(parts[k]) {
      var k :| 0 <= k < |parts| - 1 && Embedding(parts[k]);
      assert folders[k] in folders;
    }
  }

  /** A name ends in a slash exactly when its last part is empty. */
  lemma {:induction false} LastPart(name: Bytes)
    requires name != []
    ensures name[|name| - 1] == 0x2f <==> Segments(name)[|Segments(name)| - 1] == []
    decreases |name|
  {
    if |name| > 1 {
      LastPart(name[1..]);
    } else {
      assert name[1..] == [];
    }
  }

  lemma AdmissibleExactly(name: Bytes)
    ensures AdmissibleName(name) <==> NameFits(name)
  {
    if name != [] {
      DecodesExactly(name);
      PartsExactly(name);
      SegmentsSplit(name);
      hide HasReplacement, Decodes, PartsFit, IsActiveContent, InEmbeddedFolder, SplitsInto, Segments;
      forall parts | SplitsInto(name, parts) ensures parts == Segments(name) {
        OneSplit(name, parts, Segments(name));
      }
    }
  }
}
