/**
 JavaScript values as `JSON.stringify` sees them, the text it prints, and a parser for the grammar
 of RFC 8259 (white space in section 2, values in sections 3 to 7) that undoes the printing.
 */
module Json {
  import opened Wrappers
  import opened Utf16
  import Decimal
  import Hex

  datatype Value =
    | Undefined
    | Null
    | Bool(b: bool)
    | NonFinite          // NaN and the infinities
    | Num(repr: Text)    // a finite number, identified by the text Number::toString gives it
    | Str(s: Text)
    | Arr(items: seq<Value>)
    | Obj(members: seq<Member>)   // the own properties in enumeration order

  datatype Member = Member(key: Text, value: Value)

  const NULL: Text := [0x6E, 0x75, 0x6C, 0x6C]
  const TRUE: Text := [0x74, 0x72, 0x75, 0x65]
  const FALSE: Text := [0x66, 0x61, 0x6C, 0x73, 0x65]
  const QUOTE: CodeUnit := 0x22
  const COMMA: CodeUnit := 0x2C
  const COLON: CodeUnit := 0x3A
  const OPEN_BRACKET: CodeUnit := 0x5B
  const BACKSLASH: CodeUnit := 0x5C
  const CLOSE_BRACKET: CodeUnit := 0x5D
  const OPEN_BRACE: CodeUnit := 0x7B
  const CLOSE_BRACE: CodeUnit := 0x7D
  const DOT: CodeUnit := 0x2E
  const PLUS: CodeUnit := 0x2B
  const MINUS: CodeUnit := 0x2D

  // ---- numbers ----

  predicate IsNumberUnit(u: CodeUnit) {
    Decimal.IsDigit(u) || u in {DOT, PLUS, MINUS, 0x65, 0x45}
  }

  /** The end of the run of digits that starts at i. */
  function DigitsEnd(t: Text, i: nat): (end: nat)
    requires i <= |t|
    ensures i <= end <= |t|
    decreases |t| - i
  {
    if i < |t| && Decimal.IsDigit(t[i]) then DigitsEnd(t, i + 1) else i
  }

  /** An exponent part, or nothing, fills the text from i on. */
  predicate IsExponentFrom(t: Text, i: nat)
    requires i <= |t|
  {
    i == |t| ||
    (t[i] in {0x65, 0x45} &&
     var first := if i + 1 < |t| && t[i + 1] in {PLUS, MINUS} then i + 2 else i + 1;
     first < |t| && DigitsEnd(t, first) == |t|)
  }

  /** RFC 8259 section 6: number = [ minus ] int [ frac ] [ exp ]. */
  predicate IsNumber(t: Text) {
    (forall i :: 0 <= i < |t| ==> IsNumberUnit(t[i])) &&
    var digits := if t != [] && t[0] == MINUS then 1 else 0;
    var frac := DigitsEnd(t, digits);
    digits < frac && (t[digits] == 0x30 ==> frac == digits + 1) &&
    var exp := if frac < |t| && t[frac] == DOT then DigitsEnd(t, frac + 1) else frac;
    exp != frac + 1 && IsExponentFrom(t, exp)
  }

  // ---- printing ----

  /** The escape of one code unit inside a string; an unpaired surrogate is escaped as well. */
  function EscapeUnit(u: CodeUnit): (t: Text)
    ensures |t| > 0
  {
    if u == QUOTE || u == BACKSLASH then [BACKSLASH, u]
    else if u == 0x08 then [BACKSLASH, 0x62]
    else if u == 0x09 then [BACKSLASH, 0x74]
    else if u == 0x0A then [BACKSLASH, 0x6E]
    else if u == 0x0C then [BACKSLASH, 0x66]
    else if u == 0x0D then [BACKSLASH, 0x72]
    else if u < 0x20 || IsHighSurrogate(u) || IsLowSurrogate(u) then
      [BACKSLASH, 0x75, Hex.Digit(u / 4096), Hex.Digit(u / 256 % 16), Hex.Digit(u / 16 % 16), Hex.Digit(u % 16)]
    else [u]
  }

  /** The characters between the quotes. A surrogate pair is copied, everything else goes unit by unit. */
  function Escape(s: Text): Text {
    if s == [] then []
    else if StartsWithPair(s) then [s[0], s[1]] + Escape(s[2..])
    else EscapeUnit(s[0]) + Escape(s[1..])
  }

  function Quoted(s: Text): Text {
    [QUOTE] + Escape(s) + [QUOTE]
  }

  /** Values that JSON can hold: nothing undefined, every number finite. */
  predicate Plain(v: Value)
    decreases v
  {
    match v
    case Undefined => false
    case NonFinite => false
    case Num(repr) => IsNumber(repr)
    case Arr(items) => PlainItems(items)
    case Obj(members) => PlainMembers(members)
    case _ => true
  }

  predicate PlainItems(items: seq<Value>)
    decreases items
  {
    items == [] || (Plain(items[0]) && PlainItems(items[1..]))
  }

  predicate PlainMembers(members: seq<Member>)
    decreases members
  {
    members == [] || (Plain(members[0].value) && PlainMembers(members[1..]))
  }

  function Print(v: Value): (t: Text)
    requires Plain(v)
    decreases v
  {
    match v
    case Null => NULL
    case Bool(b) => if b then TRUE else FALSE
    case Num(repr) => repr
    case Str(s) => Quoted(s)
    case Arr(items) => [OPEN_BRACKET] + PrintItems(items) + [CLOSE_BRACKET]
    case Obj(members) => [OPEN_BRACE] + PrintMembers(members) + [CLOSE_BRACE]
  }

  function PrintItems(items: seq<Value>): Text
    requires PlainItems(items)
    decreases items
  {
    if items == [] then []
    else Print(items[0]) + (if |items| == 1 then [] else [COMMA] + PrintItems(items[1..]))
  }

  function PrintMembers(members: seq<Member>): Text
    requires PlainMembers(members)
    decreases members
  {
    if members == [] then []
    else PrintMember(members[0]) + (if |members| == 1 then [] else [COMMA] + PrintMembers(members[1..]))
  }

  function PrintMember(m: Member): Text
    requires Plain(m.value)
    decreases m
  {
    Quoted(m.key) + ([COLON] + Print(m.value))
  }

  /** What `JSON.stringify` keeps of a value: undefined members go, holes and non-finite numbers turn to null. */
  function Clean(v: Value): (r: Value)
    requires Legal(v)
    ensures Plain(r)
    decreases v
  {
    match v
    case Undefined => Null
    case NonFinite => Null
    case Arr(items) => Arr(CleanItems(items))
    case Obj(members) => Obj(CleanMembers(members))
    case _ => v
  }

  function CleanItems(items: seq<Value>): (r: seq<Value>)
    requires LegalItems(items)
    ensures PlainItems(r) && |r| == |items|
    decreases items
  {
    if items == [] then [] else [Clean(items[0])] + CleanItems(items[1..])
  }

  function CleanMembers(members: seq<Member>): (r: seq<Member>)
    requires LegalMembers(members)
    ensures PlainMembers(r)
    decreases members
  {
    if members == [] then []
    else if members[0].value.Undefined? then CleanMembers(members[1..])
    else [Member(members[0].key, Clean(members[0].value))] + CleanMembers(members[1..])
  }

  /** Values a JavaScript program can build: numbers print as numbers, no object has one key twice. */
  predicate Legal(v: Value)
    decreases v
  {
    match v
    case Num(repr) => IsNumber(repr)
    case Arr(items) => LegalItems(items)
    case Obj(members) => LegalMembers(members)
    case _ => true
  }

  predicate LegalItems(items: seq<Value>)
    decreases items
  {
    items == [] || (Legal(items[0]) && LegalItems(items[1..]))
  }

  predicate LegalMembers(members: seq<Member>)
    decreases members
  {
    members == [] ||
    (Legal(members[0].value) && !HasKey(members[1..], members[0].key) && LegalMembers(members[1..]))
  }

  predicate HasKey(members: seq<Member>, key: Text) {
    exists i :: 0 <= i < |members| && members[i].key == key
  }

  /** `JSON.stringify(v)`; None stands for the result undefined. */
  function Stringify(v: Value): Option<Text>
    requires Legal(v)
  {
    if v.Undefined? then None else Some(Print(Clean(v)))
  }

  // ---- parsing ----

  predicate IsSpace(u: CodeUnit) {
    u in {0x20, 0x09, 0x0A, 0x0D}
  }

  function SkipSpace(t: Text): (rest: Text)
    ensures |rest| <= |t|
  {
    if t != [] && IsSpace(t[0]) then SkipSpace(t[1..]) else t
  }

  /** Drops white space and then the one given code unit. */
  function Expect(t: Text, u: CodeUnit): (r: Option<Text>)
    ensures r.Some? ==> |r.value| < |t|
  {
    var s := SkipSpace(t);
    if s != [] && s[0] == u then Some(s[1..]) else None
  }

  /** The code unit an escape stands for, and the text after it; t starts behind the backslash. */
  function ParseEscape(t: Text): (r: Option<(CodeUnit, Text)>)
    ensures r.Some? ==> |r.value.1| < |t|
  {
    if t == [] then None
    else if t[0] in {QUOTE, BACKSLASH, 0x2F} then Some((t[0], t[1..]))
    else if t[0] == 0x62 then Some((0x08, t[1..]))
    else if t[0] == 0x74 then Some((0x09, t[1..]))
    else if t[0] == 0x6E then Some((0x0A, t[1..]))
    else if t[0] == 0x66 then Some((0x0C, t[1..]))
    else if t[0] == 0x72 then Some((0x0D, t[1..]))
    else if t[0] == 0x75 && |t| >= 5 then
      match (Hex.DigitValue(t[1]), Hex.DigitValue(t[2]), Hex.DigitValue(t[3]), Hex.DigitValue(t[4]))
      case (Some(a), Some(b), Some(c), Some(d)) => Some((4096 * a + 256 * b + 16 * c + d, t[5..]))
      case _ => None
    else None
  }

  /** The string up to the closing quote, and the text after that quote. */
  function ParseChars(t: Text): (r: Option<(Text, Text)>)
    ensures r.Some? ==> |r.value.1| < |t|
    decreases |t|
  {
    if t == [] || t[0] < 0x20 then None
    else if t[0] == QUOTE then Some(([], t[1..]))
    else
      var first := if t[0] == BACKSLASH then ParseEscape(t[1..]) else Some((t[0], t[1..]));
      match first
      case None => None
      case Some((u, rest)) =>
        match ParseChars(rest)
        case None => None
        case Some((s, after)) => Some(([u] + s, after))
  }

  /** The end of the longest prefix made of number characters. */
  function NumberEnd(t: Text): (end: nat)
    ensures end <= |t|
    ensures t != [] && IsNumberUnit(t[0]) ==> end > 0
  {
    if t == [] || !IsNumberUnit(t[0]) then 0 else 1 + NumberEnd(t[1..])
  }

  function ParseWord(t: Text, word: Text, v: Value): (r: Option<(Value, Text)>)
    requires word != []
    ensures r.Some? ==> |r.value.1| < |t|
  {
    if word <= t then Some((v, t[|word|..])) else None
  }

  /** One value after optional white space, and the text behind it. */
  function ParseValue(text: Text): (r: Option<(Value, Text)>)
    ensures r.Some? ==> |r.value.1| < |text|
    decreases |text|, 1
  {
    var t := SkipSpace(text);
    if t == [] then None
    else if t[0] == QUOTE then
      match ParseChars(t[1..])
      case None => None
      case Some((s, rest)) => Some((Str(s), rest))
    else if t[0] == OPEN_BRACKET then
      match Expect(t[1..], CLOSE_BRACKET)
      case Some(rest) => Some((Arr([]), rest))
      case None =>
        match ParseItems(t[1..])
        case None => None
        case Some((items, rest)) => Some((Arr(items), rest))
    else if t[0] == OPEN_BRACE then
      match Expect(t[1..], CLOSE_BRACE)
      case Some(rest) => Some((Obj([]), rest))
      case None =>
        match ParseMembers(t[1..])
        case None => None
        case Some((members, rest)) => Some((Obj(members), rest))
    else if t[0] == NULL[0] then ParseWord(t, NULL, Null)
    else if t[0] == TRUE[0] then ParseWord(t, TRUE, Bool(true))
    else if t[0] == FALSE[0] then ParseWord(t, FALSE, Bool(false))
    else
      var end := NumberEnd(t);
      if end > 0 && IsNumber(t[..end]) then Some((Num(t[..end]), t[end..])) else None
  }

  /** One or more items up to and including the closing bracket. */
  function ParseItems(t: Text): (r: Option<(seq<Value>, Text)>)
    ensures r.Some? ==> |r.value.1| < |t|
    decreases |t|, 2
  {
    match ParseValue(t)
    case None => None
    case Some((v, rest)) =>
      match Expect(rest, CLOSE_BRACKET)
      case Some(after) => Some(([v], after))
      case None =>
        match Expect(rest, COMMA)
        case None => None
        case Some(next) =>
          match ParseItems(next)
          case None => None
          case Some((items, after)) => Some(([v] + items, after))
  }

  function ParseKey(t: Text): (r: Option<(Text, Text)>)
    ensures r.Some? ==> |r.value.1| < |t|
  {
    match Expect(t, QUOTE)
    case None => None
    case Some(chars) =>
      match ParseChars(chars)
      case None => None
      case Some((key, rest)) =>
        match Expect(rest, COLON)
        case None => None
        case Some(after) => Some((key, after))
  }

  function ParseMember(t: Text): (r: Option<(Member, Text)>)
    ensures r.Some? ==> |r.value.1| < |t|
    decreases |t|, 2
  {
    match ParseKey(t)
    case None => None
    case Some((key, body)) =>
      match ParseValue(body)
      case None => None
      case Some((v, rest)) => Some((Member(key, v), rest))
  }

  /** One or more members up to and including the closing brace. */
  function ParseMembers(t: Text): (r: Option<(seq<Member>, Text)>)
    ensures r.Some? ==> |r.value.1| < |t|
    decreases |t|, 3
  {
    match ParseMember(t)
    case None => None
    case Some((m, rest)) =>
      match Expect(rest, CLOSE_BRACE)
      case Some(after) => Some(([m], after))
      case None =>
        match Expect(rest, COMMA)
        case None => None
        case Some(next) =>
          match ParseMembers(next)
          case None => None
          case Some((members, after)) => Some(([m] + members, after))
  }

  /** A whole JSON text: one value with nothing but white space around it. */
  function Parse(text: Text): Option<Value> {
    match ParseValue(text)
    case Some((v, rest)) => if SkipSpace(rest) == [] then Some(v) else None
    case None => None
  }

  // ---- the parser undoes the printer ----

  lemma FourHexDigits(u: CodeUnit)
    ensures 4096 * (u / 4096) + 256 * (u / 256 % 16) + 16 * (u / 16 % 16) + u % 16 == u
    ensures u / 4096 < 16
  {
    assert u / 16 == 16 * (u / 256) + u / 16 % 16;
    assert u / 256 == 16 * (u / 4096) + u / 256 % 16;
  }

  lemma ParseUnicodeEscape(u: CodeUnit, rest: Text)
    ensures u / 4096 < 16
    ensures ParseEscape(
              [0x75, Hex.Digit(u / 4096), Hex.Digit(u / 256 % 16), Hex.Digit(u / 16 % 16), Hex.Digit(u % 16)] + rest)
         == Some((u, rest))
  {
    FourHexDigits(u);
    var a, b, c, d := u / 4096, u / 256 % 16, u / 16 % 16, u % 16;
    var t := [0x75, Hex.Digit(a), Hex.Digit(b), Hex.Digit(c), Hex.Digit(d)] + rest;
    assert t[5..] == rest;
    assert Hex.DigitValue(t[1]) == Some(a) && Hex.DigitValue(t[2]) == Some(b);
    assert Hex.DigitValue(t[3]) == Some(c) && Hex.DigitValue(t[4]) == Some(d);
  }

  lemma ParseEscapeUndoes(u: CodeUnit, rest: Text)
    requires EscapeUnit(u)[0] == BACKSLASH
    ensures ParseEscape(EscapeUnit(u)[1..] + rest) == Some((u, rest))
  {
    var e := EscapeUnit(u);
    if |e| == 2 {
      assert e[1..] == [e[1]];
      assert ([e[1]] + rest)[1..] == rest;
    } else {
      ParseUnicodeEscape(u, rest);
      assert e[1..] == [0x75, Hex.Digit(u / 4096), Hex.Digit(u / 256 % 16), Hex.Digit(u / 16 % 16), Hex.Digit(u % 16)];
    }
  }

  lemma ParseCharsStep(u: CodeUnit, s: Text, tail: Text, rest: Text)
    requires u >= 0x20 && u != QUOTE && u != BACKSLASH
    requires ParseChars(tail) == Some((s, rest))
    ensures ParseChars([u] + tail) == Some(([u] + s, rest))
  {
    assert ([u] + tail)[1..] == tail;
  }

  lemma ParseCharsEscapeStep(u: CodeUnit, s: Text, tail: Text, rest: Text)
    requires ParseChars(tail) == Some((s, rest))
    ensures ParseChars(EscapeUnit(u) + tail) == Some(([u] + s, rest))
  {
    var e := EscapeUnit(u);
    if e[0] == BACKSLASH {
      ParseEscapeUndoes(u, tail);
      assert (e + tail)[1..] == e[1..] + tail;
    } else {
      ParseCharsStep(u, s, tail, rest);
    }
  }

  lemma ParseCharsPairStep(s: Text, tail: Text, rest: Text)
    requires StartsWithPair(s) && ParseChars(tail) == Some((s[2..], rest))
    ensures ParseChars([s[0], s[1]] + tail) == Some((s, rest))
  {
    ParseCharsStep(s[1], s[2..], tail, rest);
    ParseCharsStep(s[0], [s[1]] + s[2..], [s[1]] + tail, rest);
    assert [s[0], s[1]] + tail == [s[0]] + ([s[1]] + tail);
    assert s == [s[0]] + ([s[1]] + s[2..]);
  }

  lemma ParseCharsEnd(rest: Text)
    ensures ParseChars([QUOTE] + rest) == Some(([], rest))
  {
    assert ([QUOTE] + rest)[1..] == rest;
  }

  lemma Assoc(a: Text, b: Text, c: Text)
    ensures (a + b) + c == a + (b + c)
  {
  }

  lemma EscapeSplit(s: Text, end: Text)
    requires s != []
    ensures StartsWithPair(s) ==> Escape(s) + end == [s[0], s[1]] + (Escape(s[2..]) + end)
    ensures !StartsWithPair(s) ==> Escape(s) + end == EscapeUnit(s[0]) + (Escape(s[1..]) + end)
    ensures s == [s[0]] + s[1..]
  {
    if StartsWithPair(s) {
      Assoc([s[0], s[1]], Escape(s[2..]), end);
    } else {
      Assoc(EscapeUnit(s[0]), Escape(s[1..]), end);
    }
  }

  lemma {:induction false} ParseCharsUndoes(s: Text, rest: Text)
    ensures ParseChars(Escape(s) + ([QUOTE] + rest)) == Some((s, rest))
  {
    var end := [QUOTE] + rest;
    if s == [] {
      ParseCharsEnd(rest);
      assert Escape(s) + end == end;
    } else if StartsWithPair(s) {
      ParseCharsUndoes(s[2..], rest);
      ParseCharsPairStep(s, Escape(s[2..]) + end, rest);
      EscapeSplit(s, end);
    } else {
      ParseCharsUndoes(s[1..], rest);
      ParseCharsEscapeStep(s[0], s[1..], Escape(s[1..]) + end, rest);
      EscapeSplit(s, end);
    }
  }

  lemma {:induction false} NumberEndOf(repr: Text, rest: Text)
    requires forall i :: 0 <= i < |repr| ==> IsNumberUnit(repr[i])
    requires rest == [] || !IsNumberUnit(rest[0])
    ensures NumberEnd(repr + rest) == |repr|
  {
    if repr == [] {
      assert repr + rest == rest;
    } else {
      NumberEndOf(repr[1..], rest);
      assert (repr + rest)[1..] == repr[1..] + rest;
    }
  }

  /** The first character of a printed value says which kind of value it is. */
  lemma PrintStarts(v: Value)
    requires Plain(v)
    ensures Print(v) != [] && !IsSpace(Print(v)[0])
    ensures Print(v)[0] !in {CLOSE_BRACKET, CLOSE_BRACE, COMMA, COLON}
    ensures v.Num? ==> Print(v)[0] !in {QUOTE, OPEN_BRACKET, OPEN_BRACE, NULL[0], TRUE[0], FALSE[0]}
  {
  }

  /** The text behind a value must not continue a number. */
  predicate Ends(rest: Text) {
    rest == [] || !IsNumberUnit(rest[0])
  }

  lemma ParseWordUndoes(rest: Text)
    ensures ParseValue(NULL + rest) == Some((Null, rest))
    ensures ParseValue(TRUE + rest) == Some((Bool(true), rest))
    ensures ParseValue(FALSE + rest) == Some((Bool(false), rest))
  {
    assert (NULL + rest)[..4] == NULL && (NULL + rest)[4..] == rest;
    assert (TRUE + rest)[..4] == TRUE && (TRUE + rest)[4..] == rest;
    assert (FALSE + rest)[..5] == FALSE && (FALSE + rest)[5..] == rest;
  }

  lemma ParseNumberUndoes(repr: Text, rest: Text)
    requires IsNumber(repr) && Ends(rest)
    ensures ParseValue(repr + rest) == Some((Num(repr), rest))
  {
    var t := repr + rest;
    NumberEndOf(repr, rest);
    assert t[..|repr|] == repr && t[|repr|..] == rest;
    assert t[0] == repr[0];
  }

  lemma ParseStringUndoes(s: Text, rest: Text)
    ensures ParseValue(Quoted(s) + rest) == Some((Str(s), rest))
  {
    var t := Quoted(s) + rest;
    ParseCharsUndoes(s, rest);
    assert t[1..] == Escape(s) + ([QUOTE] + rest);
  }

  lemma {:induction false} ParseValueUndoes(v: Value, rest: Text)
    requires Plain(v) && Ends(rest)
    ensures ParseValue(Print(v) + rest) == Some((v, rest))
    decreases v
  {
    match v
    case Null => ParseWordUndoes(rest);
    case Bool(b) => ParseWordUndoes(rest);
    case Num(repr) => ParseNumberUndoes(repr, rest);
    case Str(s) => ParseStringUndoes(s, rest);
    case Arr(items) =>
      if items != [] {
        ParseItemsUndoes(items, rest);
      }
      ParseArrayUndoes(items, rest);
    case Obj(members) =>
      if members != [] {
        ParseMembersUndoes(members, rest);
      }
      ParseObjectUndoes(members, rest);
  }

  /** An opening mark, a non-empty or empty body and a closing mark, as the two container cases see them. */
  lemma ContainerSplit(open: CodeUnit, body: Text, close: CodeUnit, rest: Text)
    ensures [open] + body + [close] + rest == [open] + (body + ([close] + rest))
    ensures ([open] + (body + ([close] + rest)))[1..] == body + ([close] + rest)
    ensures body == [] ==> (body + ([close] + rest))[1..] == rest
  {
  }

  lemma ParseArrayUndoes(items: seq<Value>, rest: Text)
    requires PlainItems(items)
    requires items != [] ==> ParseItems(PrintItems(items) + ([CLOSE_BRACKET] + rest)) == Some((items, rest))
    ensures ParseValue(Print(Arr(items)) + rest) == Some((Arr(items), rest))
  {
    var body := PrintItems(items) + ([CLOSE_BRACKET] + rest);
    var t := [OPEN_BRACKET] + body;
    ContainerSplit(OPEN_BRACKET, PrintItems(items), CLOSE_BRACKET, rest);
    if items != [] {
      PrintStarts(items[0]);
      assert body[0] == Print(items[0])[0];
      assert Expect(body, CLOSE_BRACKET) == None;
    } else {
      assert Expect(body, CLOSE_BRACKET) == Some(rest);
    }
    assert SkipSpace(t) == t;
  }

  lemma ParseObjectUndoes(members: seq<Member>, rest: Text)
    requires PlainMembers(members)
    requires members != [] ==> ParseMembers(PrintMembers(members) + ([CLOSE_BRACE] + rest)) == Some((members, rest))
    ensures ParseValue(Print(Obj(members)) + rest) == Some((Obj(members), rest))
  {
    var body := PrintMembers(members) + ([CLOSE_BRACE] + rest);
    var t := [OPEN_BRACE] + body;
    ContainerSplit(OPEN_BRACE, PrintMembers(members), CLOSE_BRACE, rest);
    if members != [] {
      assert body[0] == QUOTE;
      assert Expect(body, CLOSE_BRACE) == None;
    } else {
      assert Expect(body, CLOSE_BRACE) == Some(rest);
    }
    assert SkipSpace(t) == t;
  }

  lemma {:induction false} ParseItemsUndoes(items: seq<Value>, rest: Text)
    requires PlainItems(items) && items != []
    ensures ParseItems(PrintItems(items) + ([CLOSE_BRACKET] + rest)) == Some((items, rest))
    decreases items
  {
    var v, end := items[0], [CLOSE_BRACKET] + rest;
    if |items| == 1 {
      assert PrintItems(items) == Print(v);
      ParseValueUndoes(v, end);
      assert end[1..] == rest;
      assert items == [v];
    } else {
      var more := PrintItems(items[1..]);
      var next := more + end;
      ParseItemsUndoes(items[1..], rest);
      ParseValueUndoes(v, [COMMA] + next);
      Assoc(Print(v), [COMMA] + more, end);
      Assoc([COMMA], more, end);
      assert Expect([COMMA] + next, COMMA) == Some(next) by {
        assert ([COMMA] + next)[1..] == next;
      }
      assert items == [v] + items[1..];
    }
  }

  lemma ParseKeyUndoes(key: Text, body: Text)
    ensures ParseKey(Quoted(key) + ([COLON] + body)) == Some((key, body))
  {
    var t := Quoted(key) + ([COLON] + body);
    assert t[1..] == Escape(key) + ([QUOTE] + ([COLON] + body));
    ParseCharsUndoes(key, [COLON] + body);
    assert ([COLON] + body)[1..] == body;
  }

  lemma {:induction false} ParseMemberUndoes(m: Member, rest: Text)
    requires Plain(m.value) && Ends(rest)
    ensures ParseMember(PrintMember(m) + rest) == Some((m, rest))
    decreases m
  {
    ParseKeyUndoes(m.key, Print(m.value) + rest);
    ParseValueUndoes(m.value, rest);
    Assoc(Quoted(m.key), [COLON] + Print(m.value), rest);
    Assoc([COLON], Print(m.value), rest);
  }

  lemma CommaIsRead(next: Text)
    ensures Expect([COMMA] + next, COMMA) == Some(next)
  {
    assert ([COMMA] + next)[1..] == next;
  }

  /** A first member and a comma in front of members that parse. */
  lemma MembersGoOn(m: Member, tail: seq<Member>, end: Text, rest: Text)
    requires tail != [] && Plain(m.value) && PlainMembers(tail)
    requires ParseMembers(PrintMembers(tail) + end) == Some((tail, rest))
    requires
      var next := [COMMA] + (PrintMembers(tail) + end);
      ParseMember(PrintMember(m) + next) == Some((m, next))
    ensures ParseMembers(PrintMember(m) + [COMMA] + PrintMembers(tail) + end) == Some(([m] + tail, rest))
  {
    var more := PrintMembers(tail);
    assert PrintMember(m) + [COMMA] + more + end == PrintMember(m) + ([COMMA] + (more + end));
    CommaIsRead(more + end);
  }

  lemma {:induction false} ParseMembersUndoes(members: seq<Member>, rest: Text)
    requires PlainMembers(members) && members != []
    ensures ParseMembers(PrintMembers(members) + ([CLOSE_BRACE] + rest)) == Some((members, rest))
    decreases members
  {
    var m, end := members[0], [CLOSE_BRACE] + rest;
    if |members| == 1 {
      assert PrintMembers(members) == PrintMember(m);
      ParseMemberUndoes(m, end);
      assert end[1..] == rest;
      assert members == [m];
    } else {
      var tail := members[1..];
      ParseMembersUndoes(tail, rest);
      ParseMemberUndoes(m, [COMMA] + (PrintMembers(tail) + end));
      MembersGoOn(m, tail, end, rest);
      assert PrintMembers(members) == PrintMember(m) + [COMMA] + PrintMembers(tail);
      assert members == [m] + tail;
    }
  }

  /** `JSON.parse` gives back every value that JSON can hold. */
  lemma ParsePrint(v: Value)
    requires Plain(v)
    ensures Parse(Print(v)) == Some(v)
  {
    ParseValueUndoes(v, []);
    assert Print(v) + [] == Print(v);
  }

  lemma {:induction false} CleanOfPlain(v: Value)
    requires Plain(v) && Legal(v)
    ensures Clean(v) == v
    decreases v
  {
    match v
    case Arr(items) => CleanOfPlainItems(items);
    case Obj(members) => CleanOfPlainMembers(members);
    case _ =>
  }

  lemma {:induction false} CleanOfPlainItems(items: seq<Value>)
    requires PlainItems(items) && LegalItems(items)
    ensures CleanItems(items) == items
    decreases items
  {
    if items != [] {
      CleanOfPlain(items[0]);
      CleanOfPlainItems(items[1..]);
    }
  }

  lemma {:induction false} CleanOfPlainMembers(members: seq<Member>)
    requires PlainMembers(members) && LegalMembers(members)
    ensures CleanMembers(members) == members
    decreases members
  {
    if members != [] {
      CleanOfPlain(members[0].value);
      CleanOfPlainMembers(members[1..]);
    }
  }

  lemma {:induction false} CleanIsLegal(v: Value)
    requires Legal(v)
    ensures Legal(Clean(v))
    decreases v
  {
    match v
    case Arr(items) => CleanItemsIsLegal(items);
    case Obj(members) => CleanMembersIsLegal(members);
    case _ =>
  }

  lemma {:induction false} CleanItemsIsLegal(items: seq<Value>)
    requires LegalItems(items)
    ensures LegalItems(CleanItems(items))
    decreases items
  {
    if items != [] {
      CleanIsLegal(items[0]);
      CleanItemsIsLegal(items[1..]);
    }
  }

  lemma {:induction false} CleanMembersIsLegal(members: seq<Member>)
    requires LegalMembers(members)
    ensures LegalMembers(CleanMembers(members))
    ensures forall key :: HasKey(CleanMembers(members), key) ==> HasKey(members, key)
    decreases members
  {
    if members != [] {
      CleanIsLegal(members[0].value);
      CleanMembersIsLegal(members[1..]);
      forall key | HasKey(members[1..], key)
        ensures HasKey(members, key)
      {
        var i :| 0 <= i < |members[1..]| && members[1..][i].key == key;
        assert members[i + 1].key == key;
      }
      forall key | HasKey(CleanMembers(members), key)
        ensures HasKey(members, key)
      {
        assert key == members[0].key || HasKey(CleanMembers(members[1..]), key);
      }
    }
  }

  // ---- what the parser builds ----

  /** The parser builds nothing but values JSON can hold. */
  lemma ParseIsPlain(t: Text)
    ensures Parse(t).Some? ==> Plain(Parse(t).value)
  {
    ParseValueIsPlain(t);
  }

  lemma {:induction false} ParseValueIsPlain(t: Text)
    ensures ParseValue(t).Some? ==> Plain(ParseValue(t).value.0)
    decreases |t|, 1
  {
    var s := SkipSpace(t);
    if s != [] && s[0] == OPEN_BRACKET {
      ParseItemsIsPlain(s[1..]);
    } else if s != [] && s[0] == OPEN_BRACE {
      ParseMembersIsPlain(s[1..]);
    }
  }

  lemma {:induction false} ParseItemsIsPlain(t: Text)
    ensures ParseItems(t).Some? ==> PlainItems(ParseItems(t).value.0)
    decreases |t|, 2
  {
    ParseValueIsPlain(t);
    if ParseItems(t).Some? {
      var rest := ParseValue(t).value.1;
      if Expect(rest, CLOSE_BRACKET).None? {
        ParseItemsIsPlain(Expect(rest, COMMA).value);
      }
    }
  }

  lemma {:induction false} ParseMembersIsPlain(t: Text)
    ensures ParseMembers(t).Some? ==> PlainMembers(ParseMembers(t).value.0)
    decreases |t|, 2
  {
    if ParseMembers(t).Some? {
      assert ParseMember(t).Some?;
      assert ParseKey(t).Some?;
      ParseValueIsPlain(ParseKey(t).value.1);
      var rest := ParseMember(t).value.1;
      if Expect(rest, CLOSE_BRACE).None? {
        ParseMembersIsPlain(Expect(rest, COMMA).value);
      }
    }
  }

  // ---- duplicate keys ----

  /** The members without one key. */
  function Without(members: seq<Member>, key: Text): (r: seq<Member>)
    ensures !HasKey(r, key)
    ensures forall k :: HasKey(r, k) ==> HasKey(members, k)
    ensures PlainMembers(members) ==> PlainMembers(r)
    ensures LegalMembers(members) ==> LegalMembers(r)
    ensures !HasKey(members, key) ==> r == members
  {
    if members == [] then []
    else
      var rest := Without(members[1..], key);
      assert forall k :: HasKey(members, k) <==> k == members[0].key || HasKey(members[1..], k) by {
        KeysOfRest(members);
      }
      if members[0].key == key then rest
      else
        var r := [members[0]] + rest;
        assert r[1..] == rest && members == [members[0]] + members[1..];
        assert forall k :: HasKey(r, k) <==> k == members[0].key || HasKey(rest, k) by {
          KeysOfRest(r);
        }
        r
  }

  lemma KeysOfRest(members: seq<Member>)
    requires members != []
    ensures forall k :: HasKey(members, k) <==> k == members[0].key || HasKey(members[1..], k)
  {
    forall k | HasKey(members, k) ensures k == members[0].key || HasKey(members[1..], k) {
      var i :| 0 <= i < |members| && members[i].key == k;
      assert i > 0 ==> members[1..][i - 1].key == k;
    }
    forall k | HasKey(members[1..], k) ensures HasKey(members, k) {
      var i :| 0 <= i < |members[1..]| && members[1..][i].key == k;
      assert members[i + 1].key == k;
    }
  }

  /** The value of the last member with a key. */
  function LastValue(members: seq<Member>, key: Text): (v: Value)
    requires HasKey(members, key)
    ensures PlainMembers(members) ==> Plain(v)
    ensures LegalMembers(members) ==> Legal(v)
  {
    KeysOfRest(members);
    if HasKey(members[1..], key) then LastValue(members[1..], key) else members[0].value
  }

  /** What the engine makes of a parsed text: of equal keys the first gives the place and the last the value. */
  function Settle(v: Value): (r: Value)
    requires Plain(v)
    ensures Plain(r) && Legal(r)
    decreases v
  {
    match v
    case Arr(items) => Arr(SettleItems(items))
    case Obj(members) => Obj(SettleMembers(members))
    case _ => v
  }

  function SettleItems(items: seq<Value>): (r: seq<Value>)
    requires PlainItems(items)
    ensures PlainItems(r) && LegalItems(r)
    decreases items
  {
    if items == [] then [] else [Settle(items[0])] + SettleItems(items[1..])
  }

  function SettleMembers(members: seq<Member>): (r: seq<Member>)
    requires PlainMembers(members)
    ensures PlainMembers(r) && LegalMembers(r)
    decreases members
  {
    if members == [] then []
    else
      var key, rest := members[0].key, SettleMembers(members[1..]);
      var value := if HasKey(rest, key) then LastValue(rest, key) else Settle(members[0].value);
      [Member(key, value)] + Without(rest, key)
  }

  /** `JSON.parse(text)`; None where it throws. */
  function JsonParse(text: Text): (r: Option<Value>)
    ensures r.Some? ==> Plain(r.value) && Legal(r.value)
  {
    ParseIsPlain(text);
    match Parse(text) case None => None case Some(v) => Some(Settle(v))
  }

  lemma {:induction false} SettleOfLegal(v: Value)
    requires Plain(v) && Legal(v)
    ensures Settle(v) == v
    decreases v
  {
    match v
    case Arr(items) => SettleOfLegalItems(items);
    case Obj(members) => SettleOfLegalMembers(members);
    case _ =>
  }

  lemma {:induction false} SettleOfLegalItems(items: seq<Value>)
    requires PlainItems(items) && LegalItems(items)
    ensures SettleItems(items) == items
    decreases items
  {
    if items != [] {
      SettleOfLegal(items[0]);
      SettleOfLegalItems(items[1..]);
    }
  }

  lemma {:induction false} SettleOfLegalMembers(members: seq<Member>)
    requires PlainMembers(members) && LegalMembers(members)
    ensures SettleMembers(members) == members
    decreases members
  {
    if members != [] {
      SettleOfLegal(members[0].value);
      SettleOfLegalMembers(members[1..]);
      assert members == [members[0]] + members[1..];
    }
  }

  /** Parsing gives back every value that was printed. */
  lemma JsonParsePrint(v: Value)
    requires Plain(v) && Legal(v)
    ensures JsonParse(Print(v)) == Some(v)
  {
    ParsePrint(v);
    SettleOfLegal(v);
  }

  // ---- printed text is well-formed UTF-16 ----

  lemma {:induction false} EscapeIsWellFormed(s: Text)
    ensures WellFormed(Escape(s))
  {
    if s == [] {
    } else if StartsWithPair(s) {
      EscapeIsWellFormed(s[2..]);
      assert Escape(s)[2..] == Escape(s[2..]);
    } else {
      EscapeIsWellFormed(s[1..]);
      EscapeUnitIsWellFormed(s[0]);
      WellFormedConcat(EscapeUnit(s[0]), Escape(s[1..]));
    }
  }

  /** Text free of surrogates is well formed. */
  lemma {:induction false} NoSurrogates(t: Text)
    requires forall i :: 0 <= i < |t| ==> !IsHighSurrogate(t[i]) && !IsLowSurrogate(t[i])
    ensures WellFormed(t)
  {
    if t != [] {
      NoSurrogates(t[1..]);
    }
  }

  lemma EscapeUnitIsWellFormed(u: CodeUnit)
    ensures WellFormed(EscapeUnit(u))
  {
    NoSurrogates(EscapeUnit(u));
  }

  lemma QuotedIsWellFormed(s: Text)
    ensures WellFormed(Quoted(s))
  {
    EscapeIsWellFormed(s);
    NoSurrogates([QUOTE]);
    WellFormedConcat([QUOTE], Escape(s));
    WellFormedConcat([QUOTE] + Escape(s), [QUOTE]);
  }

  /** Whatever strings a value holds, `JSON.stringify` prints text that UTF-8 can carry. */
  lemma {:induction false} PrintIsWellFormed(v: Value)
    requires Plain(v)
    ensures WellFormed(Print(v))
    decreases v
  {
    if v.Str? {
      QuotedIsWellFormed(v.s);
    } else if v.Arr? {
      PrintItemsIsWellFormed(v.items);
      WrapIsWellFormed(OPEN_BRACKET, PrintItems(v.items), CLOSE_BRACKET);
    } else if v.Obj? {
      PrintMembersIsWellFormed(v.members);
      WrapIsWellFormed(OPEN_BRACE, PrintMembers(v.members), CLOSE_BRACE);
    } else {
      NoSurrogates(Print(v));
    }
  }

  lemma WrapIsWellFormed(open: CodeUnit, body: Text, close: CodeUnit)
    requires WellFormed(body) && open < 0x80 && close < 0x80
    ensures WellFormed([open] + body + [close])
  {
    NoSurrogates([open]);
    NoSurrogates([close]);
    WellFormedConcat([open], body);
    WellFormedConcat([open] + body, [close]);
  }

  lemma {:induction false} PrintItemsIsWellFormed(items: seq<Value>)
    requires PlainItems(items)
    ensures WellFormed(PrintItems(items))
    decreases items
  {
    if items != [] {
      PrintIsWellFormed(items[0]);
      PrintItemsIsWellFormed(items[1..]);
      NoSurrogates([COMMA]);
      WellFormedConcat([COMMA], PrintItems(items[1..]));
      WellFormedConcat(Print(items[0]), if |items| == 1 then [] else [COMMA] + PrintItems(items[1..]));
    }
  }

  lemma {:induction false} PrintMembersIsWellFormed(members: seq<Member>)
    requires PlainMembers(members)
    ensures WellFormed(PrintMembers(members))
    decreases members
  {
    if members != [] {
      var m := members[0];
      QuotedIsWellFormed(m.key);
      PrintIsWellFormed(m.value);
      PrintMembersIsWellFormed(members[1..]);
      NoSurrogates([COLON]);
      NoSurrogates([COMMA]);
      WellFormedConcat([COLON], Print(m.value));
      WellFormedConcat(Quoted(m.key), [COLON] + Print(m.value));
      WellFormedConcat([COMMA], PrintMembers(members[1..]));
      WellFormedConcat(PrintMember(m), if |members| == 1 then [] else [COMMA] + PrintMembers(members[1..]));
    }
  }
}
