/** JSON trees, the canonical printer, and an independent reader of its output. */
module JsonText {
  import opened Wrappers
  import opened Utf16Text

  /**
   * A number is the token JSON.stringify writes for it: distinct finite numbers
   * have distinct tokens, except that -0 and 0 share one.
   */
  type NumberToken = t: Text | t != [] && forall u :: u in t ==> IsNumberUnit(u) witness [0x30]

  /** Digits, '+', '-', '.' and 'e'. */
  predicate IsNumberUnit(u: CodeUnit) {
    0x30 <= u <= 0x39 || u == 0x2b || u == 0x2d || u == 0x2e || u == 0x65
  }

  /** `Hole` is the absent element of a sparse array; it prints as nothing at all. */
  datatype Json =
    | Hole
    | Null
    | Bool(b: bool)
    | Num(token: NumberToken)
    | Str(s: Text)
    | Arr(items: seq<Json>)
    | Obj(fields: seq<Field>)

  datatype Field = Field(key: Text, value: Json)

  const NULL: Text := [0x6e, 0x75, 0x6c, 0x6c]
  const TRUE: Text := [0x74, 0x72, 0x75, 0x65]
  const FALSE: Text := [0x66, 0x61, 0x6c, 0x73, 0x65]

  // ----- printing

  function HexDigit(n: int): CodeUnit
    requires 0 <= n < 16
  {
    if n < 10 then 0x30 + n else 0x61 + n - 10
  }

  function UnicodeEscape(u: CodeUnit): Text {
    [BACKSLASH, 0x75, HexDigit(u / 0x1000), HexDigit(u / 0x100 % 16), HexDigit(u / 16 % 16), HexDigit(u % 16)]
  }

  /** One unit of a quoted string: short escapes, \u escapes for controls and unpaired surrogates. */
  function EscapeUnit(u: CodeUnit): Text {
    if u == QUOTE then [BACKSLASH, QUOTE]
    else if u == BACKSLASH then [BACKSLASH, BACKSLASH]
    else if u == 0x08 then [BACKSLASH, 0x62]
    else if u == 0x09 then [BACKSLASH, 0x74]
    else if u == 0x0a then [BACKSLASH, 0x6e]
    else if u == 0x0c then [BACKSLASH, 0x66]
    else if u == 0x0d then [BACKSLASH, 0x72]
    else if u < 0x20 || IsHigh(u) || IsLow(u) then UnicodeEscape(u)
    else [u]
  }

  predicate StartsWithPair(s: Text) {
    |s| > 1 && IsHigh(s[0]) && IsLow(s[1])
  }

  function QuoteBody(s: Text): Text {
    if s == [] then []
    else if StartsWithPair(s) then s[..2] + QuoteBody(s[2..])
    else EscapeUnit(s[0]) + QuoteBody(s[1..])
  }

  function Quote(s: Text): Text {
    [QUOTE] + QuoteBody(s) + [QUOTE]
  }

  function Print(j: Json): Text
    decreases j, 1
  {
    match j
    case Hole => []
    case Null => NULL
    case Bool(b) => if b then TRUE else FALSE
    case Num(token) => token
    case Str(s) => Quote(s)
    case Arr(items) => [LBRACKET] + PrintItems(items) + [RBRACKET]
    case Obj(fields) => [LBRACE] + PrintFields(fields) + [RBRACE]
  }

  function PrintItems(items: seq<Json>): Text
    decreases items, 0
  {
    if items == [] then []
    else if |items| == 1 then Print(items[0])
    else Print(items[0]) + [COMMA] + PrintItems(items[1..])
  }

  function PrintFields(fields: seq<Field>): Text
    decreases fields, 0
  {
    if fields == [] then []
    else
      var head := Quote(fields[0].key) + ([COLON] + Print(fields[0].value));
      if |fields| == 1 then head else head + [COMMA] + PrintFields(fields[1..])
  }

  predicate Dense(j: Json)
    decreases j
  {
    match j
    case Hole => false
    case Arr(items) => forall k :: 0 <= k < |items| ==> Dense(items[k])
    case Obj(fields) => forall k :: 0 <= k < |fields| ==> Dense(fields[k].value)
    case _ => true
  }

  // ----- reading

  datatype Parsed<+T> = Parsed(value: T, rest: Text)

  function HexValue(u: CodeUnit): Option<int> {
    if 0x30 <= u <= 0x39 then Some(u - 0x30)
    else if 0x61 <= u <= 0x66 then Some(u - 0x61 + 10)
    else None
  }

  function Unescape(u: CodeUnit): Option<CodeUnit> {
    if u == QUOTE || u == BACKSLASH then Some(u)
    else if u == 0x62 then Some(0x08)
    else if u == 0x74 then Some(0x09)
    else if u == 0x6e then Some(0x0a)
    else if u == 0x66 then Some(0x0c)
    else if u == 0x72 then Some(0x0d)
    else None
  }

  /** Reads the first unit of a quoted string: literal, short escape or \u escape. */
  function ReadUnit(t: Text): (r: Option<Parsed<CodeUnit>>)
    ensures r.Some? ==> |r.value.rest| < |t|
  {
    if t == [] || t[0] == QUOTE || t[0] < 0x20 then None
    else if t[0] != BACKSLASH then Some(Parsed(t[0], t[1..]))
    else if |t| < 2 then None
    else if t[1] != 0x75 then
      match Unescape(t[1])
      case None => None
      case Some(u) => Some(Parsed(u, t[2..]))
    else if |t| < 6 then None
    else
      match (HexValue(t[2]), HexValue(t[3]), HexValue(t[4]), HexValue(t[5]))
      case (Some(a), Some(b), Some(c), Some(d)) =>
        if 0 <= a < 16 && 0 <= b < 16 && 0 <= c < 16 && 0 <= d < 16
        then Some(Parsed(0x1000 * a + 0x100 * b + 16 * c + d, t[6..])) else None
      case _ => None
  }

  /** Reads up to and including the closing quote. */
  function ReadBody(t: Text): (r: Option<Parsed<Text>>)
    ensures r.Some? ==> |r.value.rest| < |t|
  {
    if t == [] then None
    else if t[0] == QUOTE then Some(Parsed([], t[1..]))
    else
      match ReadUnit(t)
      case None => None
      case Some(Parsed(u, rest)) =>
        match ReadBody(rest)
        case None => None
        case Some(Parsed(s, rest')) => Some(Parsed([u] + s, rest'))
  }

  function TokenLength(t: Text): (n: nat)
    ensures n <= |t|
    ensures forall k :: 0 <= k < n ==> IsNumberUnit(t[k])
  {
    if t == [] || !IsNumberUnit(t[0]) then 0 else 1 + TokenLength(t[1..])
  }

  function Parse(t: Text): (r: Option<Parsed<Json>>)
    ensures r.Some? ==> |r.value.rest| < |t|
    decreases |t|, 1
  {
    if t == [] then None
    else if t[0] == QUOTE then
      match ReadBody(t[1..])
      case None => None
      case Some(Parsed(s, rest)) => Some(Parsed(Str(s), rest))
    else if t[0] == LBRACKET then
      if |t| > 1 && t[1] == RBRACKET then Some(Parsed(Arr([]), t[2..]))
      else
        match ParseItems(t[1..])
        case None => None
        case Some(Parsed(items, rest)) => Some(Parsed(Arr(items), rest))
    else if t[0] == LBRACE then
      if |t| > 1 && t[1] == RBRACE then Some(Parsed(Obj([]), t[2..]))
      else
        match ParseFields(t[1..])
        case None => None
        case Some(Parsed(fields, rest)) => Some(Parsed(Obj(fields), rest))
    else if IsNumberUnit(t[0]) then
      var n := TokenLength(t);
      Some(Parsed(Num(t[..n]), t[n..]))
    else ParseWord(t)
  }

  function ParseWord(t: Text): (r: Option<Parsed<Json>>)
    ensures r.Some? ==> |r.value.rest| < |t|
  {
    if NULL <= t then Some(Parsed(Null, t[4..]))
    else if TRUE <= t then Some(Parsed(Bool(true), t[4..]))
    else if FALSE <= t then Some(Parsed(Bool(false), t[5..]))
    else None
  }

  /** One or more items followed by the closing bracket. */
  function ParseItems(t: Text): (r: Option<Parsed<seq<Json>>>)
    ensures r.Some? ==> |r.value.rest| < |t|
    decreases |t|, 2
  {
    match Parse(t)
    case None => None
    case Some(Parsed(item, rest)) =>
      if rest == [] then None
      else if rest[0] == RBRACKET then Some(Parsed([item], rest[1..]))
      else if rest[0] != COMMA then None
      else
        match ParseItems(rest[1..])
        case None => None
        case Some(Parsed(items, rest')) => Some(Parsed([item] + items, rest'))
  }

  /** One or more `"key":value` fields followed by the closing brace. */
  function ParseFields(t: Text): (r: Option<Parsed<seq<Field>>>)
    ensures r.Some? ==> |r.value.rest| < |t|
    decreases |t|, 2
  {
    if t == [] || t[0] != QUOTE then None
    else
      match ReadBody(t[1..])
      case None => None
      case Some(Parsed(key, afterKey)) =>
        if afterKey == [] || afterKey[0] != COLON then None
        else
          match Parse(afterKey[1..])
          case None => None
          case Some(Parsed(value, rest)) =>
            if rest == [] then None
            else if rest[0] == RBRACE then Some(Parsed([Field(key, value)], rest[1..]))
            else if rest[0] != COMMA then None
            else
              match ParseFields(rest[1..])
              case None => None
              case Some(Parsed(fields, rest')) => Some(Parsed([Field(key, value)] + fields, rest'))
  }

  /** What may legally follow a value. */
  predicate Delimited(rest: Text) {
    rest == [] || rest[0] == COMMA || rest[0] == RBRACKET || rest[0] == RBRACE
  }

  // ----- the reader inverts the printer

  lemma HexValueInvertsDigit(n: int)
    requires 0 <= n < 16
    ensures HexValue(HexDigit(n)) == Some(n)
  {
  }

  lemma ReadUnitOfHex(a: int, b: int, c: int, d: int, rest: Text)
    requires 0 <= a < 16 && 0 <= b < 16 && 0 <= c < 16 && 0 <= d < 16
    ensures ReadUnit([BACKSLASH, 0x75, HexDigit(a), HexDigit(b), HexDigit(c), HexDigit(d)] + rest)
         == Some(Parsed(0x1000 * a + 0x100 * b + 16 * c + d, rest))
  {
    var t := [BACKSLASH, 0x75, HexDigit(a), HexDigit(b), HexDigit(c), HexDigit(d)] + rest;
    assert t[6..] == rest;
    HexValueInvertsDigit(a);
    HexValueInvertsDigit(b);
    HexValueInvertsDigit(c);
    HexValueInvertsDigit(d);
  }

  lemma HexDigitsOfUnit(u: CodeUnit)
    ensures u == 0x1000 * (u / 0x1000) + 0x100 * (u / 0x100 % 16) + 16 * (u / 16 % 16) + u % 16
    ensures u / 0x1000 < 16
  {
  }

  lemma ReadUnitInvertsUnicodeEscape(u: CodeUnit, rest: Text)
    ensures ReadUnit(UnicodeEscape(u) + rest) == Some(Parsed(u, rest))
  {
    HexDigitsOfUnit(u);
    ReadUnitOfHex(u / 0x1000, u / 0x100 % 16, u / 16 % 16, u % 16, rest);
  }

  lemma ReadUnitInvertsEscape(u: CodeUnit, rest: Text)
    ensures ReadUnit(EscapeUnit(u) + rest) == Some(Parsed(u, rest))
    ensures (EscapeUnit(u) + rest)[0] != QUOTE
  {
    var t := EscapeUnit(u) + rest;
    if EscapeUnit(u) == UnicodeEscape(u) {
      ReadUnitInvertsUnicodeEscape(u, rest);
    } else {
      assert t[|EscapeUnit(u)|..] == rest;
    }
  }

  lemma ReadBodyStep(t: Text, u: CodeUnit, rest: Text, s: Text, rest': Text)
    requires t != [] && t[0] != QUOTE
    requires ReadUnit(t) == Some(Parsed(u, rest))
    requires ReadBody(rest) == Some(Parsed(s, rest'))
    ensures ReadBody(t) == Some(Parsed([u] + s, rest'))
  {
  }

  lemma ReadBodyOfEscape(u: CodeUnit, tail: Text, s: Text, rest: Text)
    requires ReadBody(tail) == Some(Parsed(s, rest))
    ensures ReadBody(EscapeUnit(u) + tail) == Some(Parsed([u] + s, rest))
  {
    ReadUnitInvertsEscape(u, tail);
    ReadBodyStep(EscapeUnit(u) + tail, u, tail, s, rest);
  }

  lemma ReadBodyOfPair(pair: Text, tail: Text, s: Text, rest: Text)
    requires |pair| == 2 && IsHigh(pair[0]) && IsLow(pair[1])
    requires ReadBody(tail) == Some(Parsed(s, rest))
    ensures ReadBody(pair + tail) == Some(Parsed(pair + s, rest))
  {
    var t := pair + tail;
    assert t[1..] == [pair[1]] + tail;
    ReadBodyStep(t[1..], pair[1], tail, s, rest);
    ReadBodyStep(t, pair[0], t[1..], [pair[1]] + s, rest);
    assert pair + s == [pair[0]] + ([pair[1]] + s);
  }

  lemma Regroup(a: Text, b: Text, c: Text, d: Text)
    ensures a + b + c + d == a + (b + c + d)
  {
  }

  lemma {:induction false} ReadBodyInvertsQuote(s: Text, rest: Text)
    ensures ReadBody(QuoteBody(s) + [QUOTE] + rest) == Some(Parsed(s, rest))
  {
    if s == [] {
      assert QuoteBody(s) + [QUOTE] + rest == [QUOTE] + rest;
    } else if StartsWithPair(s) {
      ReadBodyInvertsQuote(s[2..], rest);
      ReadBodyOfPair(s[..2], QuoteBody(s[2..]) + [QUOTE] + rest, s[2..], rest);
      Regroup(s[..2], QuoteBody(s[2..]), [QUOTE], rest);
      assert s == s[..2] + s[2..];
    } else {
      ReadBodyInvertsQuote(s[1..], rest);
      ReadBodyOfEscape(s[0], QuoteBody(s[1..]) + [QUOTE] + rest, s[1..], rest);
      Regroup(EscapeUnit(s[0]), QuoteBody(s[1..]), [QUOTE], rest);
      assert s == [s[0]] + s[1..];
    }
  }

  lemma {:induction false} TokenLengthOfNumber(token: Text, rest: Text)
    requires forall u :: u in token ==> IsNumberUnit(u)
    requires Delimited(rest)
    ensures TokenLength(token + rest) == |token|
  {
    if token == [] {
      assert token + rest == rest;
    } else {
      assert (token + rest)[1..] == token[1..] + rest;
      TokenLengthOfNumber(token[1..], rest);
    }
  }

  lemma PrintNonEmpty(j: Json)
    requires Dense(j)
    ensures Print(j) != []
    ensures Print(j)[0] != RBRACKET && Print(j)[0] != RBRACE
  {
    if j.Num? {
      assert j.token[0] in j.token;
    }
  }

  /** The reader recovers every dense value, whatever legally follows it. */
  lemma {:induction false} ParseInvertsPrint(j: Json, rest: Text)
    requires Dense(j) && Delimited(rest)
    ensures Parse(Print(j) + rest) == Some(Parsed(j, rest))
    decreases j, 1
  {
    match j
    case Null => ParseWordInverts(j, rest);
    case Bool(b) => ParseWordInverts(j, rest);
    case Num(token) => ParseNumber(token, rest);
    case Str(s) => ParseString(s, rest);
    case Arr(items) => ParseInvertsArray(items, rest);
    case Obj(fields) => ParseInvertsObject(fields, rest);
  }

  lemma {:induction false} ParseInvertsArray(items: seq<Json>, rest: Text)
    requires forall k :: 0 <= k < |items| ==> Dense(items[k])
    ensures Parse([LBRACKET] + PrintItems(items) + [RBRACKET] + rest) == Some(Parsed(Arr(items), rest))
    decreases items, 1
  {
    var body := PrintItems(items) + [RBRACKET] + rest;
    Regroup([LBRACKET], PrintItems(items), [RBRACKET], rest);
    if items == [] {
      assert [LBRACKET] + body == [LBRACKET, RBRACKET] + rest;
    } else {
      ParseInvertsPrintItems(items, rest);
      PrintItemsStart(items);
      ParseArray([LBRACKET] + body, body, items, rest);
    }
  }

  lemma {:induction false} ParseInvertsObject(fields: seq<Field>, rest: Text)
    requires forall k :: 0 <= k < |fields| ==> Dense(fields[k].value)
    ensures Parse([LBRACE] + PrintFields(fields) + [RBRACE] + rest) == Some(Parsed(Obj(fields), rest))
    decreases fields, 1
  {
    var body := PrintFields(fields) + [RBRACE] + rest;
    Regroup([LBRACE], PrintFields(fields), [RBRACE], rest);
    if fields == [] {
      assert [LBRACE] + body == [LBRACE, RBRACE] + rest;
    } else {
      ParseInvertsPrintFields(fields, rest);
      PrintFieldsStart(fields);
      ParseObject([LBRACE] + body, body, fields, rest);
    }
  }

  lemma ParseNumber(token: NumberToken, rest: Text)
    requires Delimited(rest)
    ensures Parse(token + rest) == Some(Parsed(Num(token), rest))
  {
    var t := token + rest;
    TokenLengthOfNumber(token, rest);
    assert token[0] in token && t[0] == token[0];
    assert t[..|token|] == token && t[|token|..] == rest;
  }

  lemma ParseString(s: Text, rest: Text)
    ensures Parse(Quote(s) + rest) == Some(Parsed(Str(s), rest))
  {
    var t := Quote(s) + rest;
    ReadBodyInvertsQuote(s, rest);
    assert t[1..] == QuoteBody(s) + [QUOTE] + rest;
  }

  lemma PrintFieldsStart(fields: seq<Field>)
    requires fields != []
    ensures PrintFields(fields) != [] && PrintFields(fields)[0] == QUOTE
  {
  }

  lemma ParseWordInverts(j: Json, rest: Text)
    requires j.Null? || j.Bool?
    ensures Parse(Print(j) + rest) == Some(Parsed(j, rest))
  {
    var t := Print(j) + rest;
    if j == Bool(false) {
      assert t[0] == FALSE[0] && t[..5] == FALSE && t[5..] == rest;
    } else {
      assert t[..4] == Print(j) && t[4..] == rest && t[0] == Print(j)[0];
    }
  }

  lemma ParseArray(t: Text, body: Text, items: seq<Json>, rest: Text)
    requires t == [LBRACKET] + body && body != [] && body[0] != RBRACKET
    requires ParseItems(body) == Some(Parsed(items, rest))
    ensures Parse(t) == Some(Parsed(Arr(items), rest))
  {
    assert t[1..] == body;
  }

  lemma ParseObject(t: Text, body: Text, fields: seq<Field>, rest: Text)
    requires t == [LBRACE] + body && body != [] && body[0] != RBRACE
    requires ParseFields(body) == Some(Parsed(fields, rest))
    ensures Parse(t) == Some(Parsed(Obj(fields), rest))
  {
    assert t[1..] == body;
  }

  lemma PrintItemsStart(items: seq<Json>)
    requires items != [] && Dense(items[0])
    ensures PrintItems(items) != [] && PrintItems(items)[0] == Print(items[0])[0] != RBRACKET
  {
    PrintNonEmpty(items[0]);
  }

  lemma ParseItemsStep(t: Text, item: Json, rest: Text, items: seq<Json>, rest': Text)
    requires Parse(t) == Some(Parsed(item, rest)) && rest != []
    requires if rest[0] == COMMA then ParseItems(rest[1..]) == Some(Parsed(items, rest'))
             else rest[0] == RBRACKET && items == [] && rest' == rest[1..]
    ensures ParseItems(t) == Some(Parsed([item] + items, rest'))
  {
    assert [item] + [] == [item];
  }

  lemma {:induction false} ParseInvertsPrintItems(items: seq<Json>, rest: Text)
    requires items != [] && forall k :: 0 <= k < |items| ==> Dense(items[k])
    ensures ParseItems(PrintItems(items) + [RBRACKET] + rest) == Some(Parsed(items, rest))
    decreases items, 0
  {
    var t := PrintItems(items) + [RBRACKET] + rest;
    var more := PrintItems(items[1..]) + [RBRACKET] + rest;
    var after := if |items| == 1 then [RBRACKET] + rest else [COMMA] + more;
    assert t == Print(items[0]) + after;
    ParseInvertsPrint(items[0], after);
    if |items| > 1 {
      ParseInvertsPrintItems(items[1..], rest);
      assert after[1..] == more;
    } else {
      assert after[1..] == rest;
    }
    ParseItemsStep(t, items[0], after, items[1..], rest);
    assert items == [items[0]] + items[1..];
  }

  lemma ParseFieldsStep(t: Text, f: Field, afterKey: Text, rest: Text, fields: seq<Field>, rest': Text)
    requires t != [] && t[0] == QUOTE && ReadBody(t[1..]) == Some(Parsed(f.key, afterKey))
    requires afterKey != [] && afterKey[0] == COLON
    requires Parse(afterKey[1..]) == Some(Parsed(f.value, rest)) && rest != []
    requires if rest[0] == COMMA then ParseFields(rest[1..]) == Some(Parsed(fields, rest'))
             else rest[0] == RBRACE && fields == [] && rest' == rest[1..]
    ensures ParseFields(t) == Some(Parsed([f] + fields, rest'))
  {
    assert [f] + [] == [f];
    assert f == Field(f.key, f.value);
  }

  lemma ParseField(f: Field, value: Text, after: Text, fields: seq<Field>, rest: Text)
    requires Parse(value) == Some(Parsed(f.value, after)) && after != []
    requires if after[0] == COMMA then ParseFields(after[1..]) == Some(Parsed(fields, rest))
             else after[0] == RBRACE && fields == [] && rest == after[1..]
    ensures ParseFields(Quote(f.key) + ([COLON] + value)) == Some(Parsed([f] + fields, rest))
  {
    var afterKey := [COLON] + value;
    assert afterKey[1..] == value;
    ReadKey(f.key, afterKey);
    ParseFieldsStep(Quote(f.key) + afterKey, f, afterKey, after, fields, rest);
  }

  lemma ReadKey(key: Text, afterKey: Text)
    ensures ReadBody((Quote(key) + afterKey)[1..]) == Some(Parsed(key, afterKey))
  {
    ReadBodyInvertsQuote(key, afterKey);
    assert (Quote(key) + afterKey)[1..] == QuoteBody(key) + [QUOTE] + afterKey;
  }

  lemma {:induction false} ParseInvertsPrintFields(fields: seq<Field>, rest: Text)
    requires fields != [] && forall k :: 0 <= k < |fields| ==> Dense(fields[k].value)
    ensures ParseFields(PrintFields(fields) + [RBRACE] + rest) == Some(Parsed(fields, rest))
    decreases fields, 0
  {
    var f := fields[0];
    if |fields| == 1 {
      var after := [RBRACE] + rest;
      assert fields == [f];
      ParseInvertsPrint(f.value, after);
      ParseLastField(f, rest);
    } else {
      var after := [COMMA] + (PrintFields(fields[1..]) + [RBRACE] + rest);
      ParseInvertsPrint(f.value, after);
      ParseInvertsPrintFields(fields[1..], rest);
      assert fields == [f] + fields[1..];
      ParseFieldThenMore(f, fields[1..], rest);
    }
  }

  lemma ParseLastField(f: Field, rest: Text)
    requires Parse(Print(f.value) + ([RBRACE] + rest)) == Some(Parsed(f.value, [RBRACE] + rest))
    ensures ParseFields(PrintFields([f]) + [RBRACE] + rest) == Some(Parsed([f], rest))
  {
    var after := [RBRACE] + rest;
    var head := Quote(f.key) + ([COLON] + Print(f.value));
    assert after[1..] == rest;
    ParseField(f, Print(f.value) + after, after, [], rest);
    RegroupField(Quote(f.key), Print(f.value), after);
    assert head + [RBRACE] + rest == head + after;
    assert [f] + [] == [f];
  }

  lemma ParseFieldThenMore(f: Field, fields: seq<Field>, rest: Text)
    requires fields != []
    requires var after := [COMMA] + (PrintFields(fields) + [RBRACE] + rest);
             Parse(Print(f.value) + after) == Some(Parsed(f.value, after))
    requires ParseFields(PrintFields(fields) + [RBRACE] + rest) == Some(Parsed(fields, rest))
    ensures ParseFields(PrintFields([f] + fields) + [RBRACE] + rest) == Some(Parsed([f] + fields, rest))
  {
    var more := PrintFields(fields) + [RBRACE] + rest;
    var after := [COMMA] + more;
    var head := Quote(f.key) + ([COLON] + Print(f.value));
    assert after[1..] == more;
    ParseField(f, Print(f.value) + after, after, fields, rest);
    RegroupField(Quote(f.key), Print(f.value), after);
    RegroupMore(head, PrintFields(fields), rest);
    assert ([f] + fields)[1..] == fields;
  }

  lemma RegroupField(key: Text, value: Text, after: Text)
    ensures key + ([COLON] + value) + after == key + ([COLON] + (value + after))
  {
  }

  lemma RegroupMore(head: Text, fields: Text, rest: Text)
    ensures head + [COMMA] + fields + [RBRACE] + rest == head + ([COMMA] + (fields + [RBRACE] + rest))
  {
  }

  /** No text reads back as a sparse array, so a hole is never recovered. */
  lemma {:induction false} ParsedIsDense(t: Text)
    requires Parse(t).Some?
    ensures Dense(Parse(t).value.value)
    decreases |t|, 1
  {
    if t[0] == LBRACKET && !(|t| > 1 && t[1] == RBRACKET) {
      ParsedItemsAreDense(t[1..]);
    } else if t[0] == LBRACE && !(|t| > 1 && t[1] == RBRACE) {
      ParsedFieldsAreDense(t[1..]);
    }
  }

  lemma {:induction false} ParsedItemsAreDense(t: Text)
    requires ParseItems(t).Some?
    ensures forall k :: 0 <= k < |ParseItems(t).value.value| ==> Dense(ParseItems(t).value.value[k])
    decreases |t|, 2
  {
    ParsedIsDense(t);
    var rest := Parse(t).value.rest;
    if rest[0] == COMMA {
      ParsedItemsAreDense(rest[1..]);
    }
  }

  lemma {:induction false} ParsedFieldsAreDense(t: Text)
    requires ParseFields(t).Some?
    ensures forall k :: 0 <= k < |ParseFields(t).value.value| ==> Dense(ParseFields(t).value.value[k].value)
    decreases |t|, 2
  {
    var afterKey := ReadBody(t[1..]).value.rest;
    ParsedIsDense(afterKey[1..]);
    var rest := Parse(afterKey[1..]).value.rest;
    if rest[0] == COMMA {
      ParsedFieldsAreDense(rest[1..]);
    }
  }

  /** Exactly when the text can be read back: the value holds no sparse array. */
  lemma RoundTripExactlyWhenDense(j: Json)
    ensures Parse(Print(j)) == Some(Parsed(j, [])) <==> Dense(j)
  {
    assert Print(j) + [] == Print(j);
    if Dense(j) {
      ParseInvertsPrint(j, []);
    } else if Parse(Print(j)) == Some(Parsed(j, [])) {
      ParsedIsDense(Print(j));
    }
  }

  /** Equal texts mean equal values. */
  lemma PrintInjective(a: Json, b: Json)
    requires Dense(a) && Dense(b) && Print(a) == Print(b)
    ensures a == b
  {
    RoundTripExactlyWhenDense(a);
    RoundTripExactlyWhenDense(b);
  }

  // ----- the text is well-formed UTF-16

  lemma {:induction false} QuoteBodyWellFormed(s: Text)
    ensures WellFormed(QuoteBody(s))
  {
    if s != [] {
      var n := if StartsWithPair(s) then 2 else 1;
      QuoteBodyWellFormed(s[n..]);
      var head := if n == 2 then s[..2] else EscapeUnit(s[0]);
      assert WellFormed(head) by {
        if |head| == 6 {
          SixPlainUnits(head);
        }
      }
      WellFormedConcat(head, QuoteBody(s[n..]));
    }
  }

  lemma {:induction false} SixPlainUnits(t: Text)
    requires forall u :: u in t ==> !IsHigh(u) && !IsLow(u)
    ensures WellFormed(t)
  {
    if t != [] {
      assert t[0] in t;
      SixPlainUnits(t[1..]);
    }
  }

  lemma QuoteWellFormed(s: Text)
    ensures WellFormed(Quote(s))
  {
    QuoteBodyWellFormed(s);
    WellFormedConcat([QUOTE], QuoteBody(s));
    WellFormedConcat([QUOTE] + QuoteBody(s), [QUOTE]);
  }

  lemma Wrap(open: CodeUnit, body: Text, close: CodeUnit)
    requires WellFormed(body) && open < 0xd800 && close < 0xd800
    ensures WellFormed([open] + body + [close])
  {
    WellFormedConcat([open], body);
    WellFormedConcat([open] + body, [close]);
  }

  /** Unpaired surrogates are always escaped, so hashing the UTF-8 bytes loses nothing. */
  lemma {:induction false} PrintWellFormed(j: Json)
    ensures WellFormed(Print(j))
    decreases j, 1
  {
    match j
    case Hole =>
    case Null => SixPlainUnits(NULL);
    case Bool(b) => SixPlainUnits(if b then TRUE else FALSE);
    case Num(token) => SixPlainUnits(token);
    case Str(s) => QuoteWellFormed(s);
    case Arr(items) =>
      PrintItemsWellFormed(items);
      Wrap(LBRACKET, PrintItems(items), RBRACKET);
    case Obj(fields) =>
      PrintFieldsWellFormed(fields);
      Wrap(LBRACE, PrintFields(fields), RBRACE);
  }

  lemma {:induction false} PrintItemsWellFormed(items: seq<Json>)
    ensures WellFormed(PrintItems(items))
    decreases items, 0
  {
    if items != [] {
      PrintWellFormed(items[0]);
      if |items| > 1 {
        PrintItemsWellFormed(items[1..]);
        WellFormedConcat(Print(items[0]), [COMMA]);
        WellFormedConcat(Print(items[0]) + [COMMA], PrintItems(items[1..]));
      }
    }
  }

  lemma {:induction false} PrintFieldsWellFormed(fields: seq<Field>)
    ensures WellFormed(PrintFields(fields))
    decreases fields, 0
  {
    if fields != [] {
      var f := fields[0];
      QuoteWellFormed(f.key);
      PrintWellFormed(f.value);
      WellFormedConcat([COLON], Print(f.value));
      WellFormedConcat(Quote(f.key), [COLON] + Print(f.value));
      if |fields| > 1 {
        var head := Quote(f.key) + ([COLON] + Print(f.value));
        PrintFieldsWellFormed(fields[1..]);
        WellFormedConcat(head, [COMMA]);
        WellFormedConcat(head + [COMMA], PrintFields(fields[1..]));
      }
    }
  }
}
