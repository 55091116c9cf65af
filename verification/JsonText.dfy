/** JSON text as bytes: the grammar of RFC 8259 (sections 2, 4, 5 and 7) in the compact form that
    `JSON.stringify` writes, with UTF-8 (RFC 3629, section 3) inside strings. */
module JsonText {
  import opened CodeUnits

  type byte = x: int | 0 <= x < 256

  type Bytes = seq<byte>

  const QUOTE: byte := 0x22
  const COMMA: byte := 0x2C
  const COLON: byte := 0x3A
  const LBRACKET: byte := 0x5B
  const BACKSLASH: byte := 0x5C
  const RBRACKET: byte := 0x5D
  const LBRACE: byte := 0x7B
  const RBRACE: byte := 0x7D

  /** The bytes between the quotes of a string: no bare quote, and no dangling backslash. */
  predicate StringBody(s: Bytes) {
    if s == [] then true
    else if s[0] == BACKSLASH then |s| >= 2 && StringBody(s[2..])
    else s[0] != QUOTE && StringBody(s[1..])
  }

  /** A number, `true`, `false` or `null`: text without any structural byte. */
  predicate ScalarText(s: Bytes) {
    s != [] && forall b | b in s :: b !in {QUOTE, COMMA, COLON, LBRACKET, BACKSLASH, RBRACKET, LBRACE, RBRACE}
  }

  datatype Json =
    | Scalar(text: Bytes)
    | Str(body: Bytes)
    | Arr(items: seq<Json>)
    | Obj(members: seq<Member>)

  datatype Member = Member(name: Bytes, value: Json)

  predicate Valid(v: Json)
    decreases v
  {
    match v
    case Scalar(text) => ScalarText(text)
    case Str(body) => StringBody(body)
    case Arr(items) => ValidItems(items)
    case Obj(members) => ValidMembers(members)
  }

  predicate ValidItems(items: seq<Json>)
    decreases items
  {
    items == [] || (Valid(items[0]) && ValidItems(items[1..]))
  }

  predicate ValidMembers(members: seq<Member>)
    decreases members
  {
    members == []
    || (StringBody(members[0].name) && Valid(members[0].value) && ValidMembers(members[1..]))
  }

  function Quoted(body: Bytes): Bytes {
    [QUOTE] + body + [QUOTE]
  }

  function Print(v: Json): Bytes
    decreases v
  {
    match v
    case Scalar(text) => text
    case Str(body) => Quoted(body)
    case Arr(items) => [LBRACKET] + PrintItems(items) + [RBRACKET]
    case Obj(members) => [LBRACE] + PrintMembers(members) + [RBRACE]
  }

  function PrintItems(items: seq<Json>): Bytes
    decreases items
  {
    if items == [] then []
    else if |items| == 1 then Print(items[0])
    else Print(items[0]) + [COMMA] + PrintItems(items[1..])
  }

  function PrintMember(m: Member): Bytes
    decreases m
  {
    Quoted(m.name) + [COLON] + Print(m.value)
  }

  function PrintMembers(members: seq<Member>): Bytes
    decreases members
  {
    if members == [] then []
    else if |members| == 1 then PrintMember(members[0])
    else PrintMember(members[0]) + [COMMA] + PrintMembers(members[1..])
  }

  // ---------------------------------------------------------------- strings

  /** A Unicode scalar value. */
  type Scalar32 = x: int | 0 <= x < 0xD800 || 0xE000 <= x < 0x110000

  function Utf8(c: Scalar32): Bytes {
    if c < 0x80 then [c]
    else if c < 0x800 then [0xC0 + c / 0x40, 0x80 + c % 0x40]
    else if c < 0x10000 then [0xE0 + c / 0x1000, 0x80 + c / 0x40 % 0x40, 0x80 + c % 0x40]
    else [0xF0 + c / 0x40000, 0x80 + c / 0x1000 % 0x40, 0x80 + c / 0x40 % 0x40, 0x80 + c % 0x40]
  }

  /** The character that a surrogate pair stands for. */
  function Paired(high: Unit, low: Unit): Scalar32
    requires IsHigh(high) && IsLow(low)
  {
    0x10000 + (high - 0xD800) * 0x400 + (low - 0xDC00)
  }

  function Hex4(c: Unit): Bytes {
    [HexDigit(c / 0x1000), HexDigit(c / 0x100 % 0x10), HexDigit(c / 0x10 % 0x10), HexDigit(c % 0x10)]
  }

  /** One unit as `JSON.stringify` writes it: the short escapes, `\uXXXX` for the other control characters
      and for a lone surrogate, UTF-8 otherwise. */
  function EscapeUnit(c: Unit): Bytes {
    if c == 0x22 then [BACKSLASH, QUOTE]
    else if c == 0x5C then [BACKSLASH, BACKSLASH]
    else if c == 0x08 then [BACKSLASH, 0x62]
    else if c == 0x09 then [BACKSLASH, 0x74]
    else if c == 0x0A then [BACKSLASH, 0x6E]
    else if c == 0x0C then [BACKSLASH, 0x66]
    else if c == 0x0D then [BACKSLASH, 0x72]
    else if c < 0x20 || IsHigh(c) || IsLow(c) then [BACKSLASH, 0x75] + Hex4(c)
    else Utf8(c)
  }

  /** A string as it stands between quotes; a surrogate pair is one character. */
  function Escape(s: Text): Bytes {
    if s == [] then []
    else if IsPair(s) then Utf8(Paired(s[0], s[1])) + Escape(s[2..])
    else EscapeUnit(s[0]) + Escape(s[1..])
  }

  /** Bytes without quote or backslash may stand in front of any string body. */
  lemma {:induction false} PlainBytesExtendBody(p: Bytes, s: Bytes)
    requires forall b | b in p :: b != QUOTE && b != BACKSLASH
    requires StringBody(s)
    ensures StringBody(p + s)
  {
    if p == [] {
      assert p + s == s;
    } else {
      assert p[0] in p && forall b | b in p[1..] :: b in p;
      PlainBytesExtendBody(p[1..], s);
      assert (p + s)[1..] == p[1..] + s;
    }
  }

  lemma EscapedUnitExtendsBody(c: Unit, s: Bytes)
    requires StringBody(s)
    ensures StringBody(EscapeUnit(c) + s)
  {
    var e := EscapeUnit(c);
    if e[0] == BACKSLASH {
      assert (e + s)[2..] == e[2..] + s;
      PlainBytesExtendBody(e[2..], s);
    } else {
      PlainBytesExtendBody(e, s);
    }
  }

  /** Every string, lone surrogates included, that is escaped and encoded this way is a string body: the byte
      scan never mistakes part of a multi-byte character, or an escaped quote, for the closing quote. */
  lemma {:induction false} EscapedIsStringBody(s: Text)
    ensures StringBody(Escape(s))
    decreases |s|
  {
    if s == [] {
    } else if IsPair(s) {
      EscapedIsStringBody(s[2..]);
      PlainBytesExtendBody(Utf8(Paired(s[0], s[1])), Escape(s[2..]));
    } else {
      EscapedIsStringBody(s[1..]);
      EscapedUnitExtendsBody(s[0], Escape(s[1..]));
    }
  }
}
