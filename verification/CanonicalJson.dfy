/** `stableStringify`: JSON text with sorted keys. */
module CanonicalJson {
  // It is a normal form. Texts are sequences of UTF-16 code units.

  import opened CodeUnits
  import opened Sequences
  import opened Sorting

  const QUOTE: Unit := 0x22
  const COMMA: Unit := 0x2C
  const COLON: Unit := 0x3A
  const LBRACKET: Unit := 0x5B
  const BACKSLASH: Unit := 0x5C
  const RBRACKET: Unit := 0x5D
  const LBRACE: Unit := 0x7B
  const RBRACE: Unit := 0x7D

  /** What `JSON.parse` gives. A number that can be held is known by the text that it prints as (so that -0 is
      0); one that is too large to be held is infinite, and prints as `null`. */
  datatype Value =
    | Null
    | Infinite(negative: bool)
    | Bool(b: bool)
    | Num(text: Text)
    | Str(s: Text)
    | Arr(items: seq<Value>)
    | Obj(fields: seq<Field>)

  datatype Field = Field(key: Text, value: Value)

  /** The texts of numbers: digits, sign, point and exponent. */
  predicate NumberText(s: Text) {
    && s != [] && (s[0] == 0x2D || 0x30 <= s[0] <= 0x39)
    && forall i | 0 <= i < |s| :: NumberUnit(s[i])
  }

  predicate NumberUnit(c: Unit) {
    c in {0x2B, 0x2D, 0x2E, 0x45, 0x65} || 0x30 <= c <= 0x39
  }

  predicate DistinctKeys(fields: seq<Field>) {
    forall i, j | 0 <= i < j < |fields| :: fields[i].key != fields[j].key
  }

  /** A value that came out of JSON: objects have no key twice. */
  predicate Valid(v: Value)
    decreases v
  {
    match v
    case Num(text) => NumberText(text)
    case Arr(items) => forall x | x in items :: Valid(x)
    case Obj(fields) => DistinctKeys(fields) && forall f | f in fields :: Valid(f.value)
    case _ => true
  }

  // ------------------------------------------------- quoting strings

  function Hex4(c: Unit): Text {
    [HexDigit(c / 0x1000), HexDigit(c / 0x100 % 0x10), HexDigit(c / 0x10 % 0x10), HexDigit(c % 0x10)]
  }

  function EscapeUnit(c: Unit): Text {
    if c == 0x22 || c == 0x5C then [BACKSLASH, c]
    else if c == 0x08 then [BACKSLASH, 0x62]
    else if c == 0x09 then [BACKSLASH, 0x74]
    else if c == 0x0A then [BACKSLASH, 0x6E]
    else if c == 0x0C then [BACKSLASH, 0x66]
    else if c == 0x0D then [BACKSLASH, 0x72]
    else if c < 0x20 || IsHigh(c) || IsLow(c) then [BACKSLASH, 0x75] + Hex4(c)
    else [c]
  }

  /** Surrogate pairs stand as they are; lone surrogates are escaped. */
  function Escape(s: Text): Text {
    if s == [] then []
    else if |s| >= 2 && IsHigh(s[0]) && IsLow(s[1]) then [s[0], s[1]] + Escape(s[2..])
    else EscapeUnit(s[0]) + Escape(s[1..])
  }

  function Quote(s: Text): Text {
    [QUOTE] + Escape(s) + [QUOTE]
  }

  // ------------------------------------------------- stableStringify

  /** The order of `Array.prototype.sort`: by code units. */
  predicate LexLe(a: Text, b: Text) {
    if a == [] then true
    else if b == [] then false
    else if a[0] != b[0] then a[0] < b[0]
    else LexLe(a[1..], b[1..])
  }

  datatype Entry = Entry(key: Text, text: Text)

  function EntryOrder(): (Entry, Entry) -> bool {
    (a: Entry, b: Entry) => LexLe(a.key, b.key)
  }

  function Join(texts: seq<Text>): Text {
    if texts == [] then []
    else if |texts| == 1 then texts[0]
    else texts[0] + [COMMA] + Join(texts[1..])
  }

  function EntryText(e: Entry): Text {
    Quote(e.key) + [COLON] + e.text
  }

  function Stringify(v: Value): Text
    decreases v
  {
    match v
    case Null => [0x6E, 0x75, 0x6C, 0x6C]
    case Infinite(_) => [0x6E, 0x75, 0x6C, 0x6C]
    case Bool(b) => if b then [0x74, 0x72, 0x75, 0x65] else [0x66, 0x61, 0x6C, 0x73, 0x65]
    case Num(text) => text
    case Str(s) => Quote(s)
    case Arr(items) => [LBRACKET] + Join(StringifyItems(items)) + [RBRACKET]
    case Obj(fields) =>
      [LBRACE] + Join(Map(StableSort(StringifyFields(fields), EntryOrder()), (e: Entry) => EntryText(e))) + [RBRACE]
  }

  function StringifyItems(items: seq<Value>): (r: seq<Text>)
    ensures |r| == |items|
    decreases items
  {
    if items == [] then [] else [Stringify(items[0])] + StringifyItems(items[1..])
  }

  function StringifyFields(fields: seq<Field>): (r: seq<Entry>)
    ensures |r| == |fields|
    decreases fields
  {
    if fields == [] then []
    else [Entry(fields[0].key, Stringify(fields[0].value))] + StringifyFields(fields[1..])
  }

  /** An infinite number counts as null. */
  function Finite(v: Value): Value {
    if v.Infinite? then Null else v
  }

  /** Equal up to the order of object keys. */
  ghost predicate Same(v: Value, w: Value)
    decreases v
  {
    match (v, w)
    case (Arr(xs), Arr(ys)) => |xs| == |ys| && forall i | 0 <= i < |xs| :: Same(xs[i], ys[i])
    case (Obj(fs), Obj(gs)) => |fs| == |gs| && forall i | 0 <= i < |fs| :: HasSame(gs, fs[i])
    case (Arr(_), _) => false
    case (Obj(_), _) => false
    case _ => Finite(v) == Finite(w)
  }

  /** Some field has the same key and the same value. */
  ghost predicate HasSame(gs: seq<Field>, f: Field)
    decreases f
  {
    exists j :: 0 <= j < |gs| && f.key == gs[j].key && Same(f.value, gs[j].value)
  }

  // ------------------------------------------------- the order of keys is total

  lemma {:induction false} LexAntisymmetric(a: Text, b: Text)
    requires LexLe(a, b) && LexLe(b, a)
    ensures a == b
  {
    if a != [] && b != [] {
      LexAntisymmetric(a[1..], b[1..]);
      assert a == [a[0]] + a[1..] && b == [b[0]] + b[1..];
    }
  }

  lemma {:induction false} LexTotal(a: Text, b: Text)
    ensures LexLe(a, b) || LexLe(b, a)
  {
    if a != [] && b != [] {
      LexTotal(a[1..], b[1..]);
    }
  }

  lemma {:induction false} LexTransitive(a: Text, b: Text, c: Text)
    requires LexLe(a, b) && LexLe(b, c)
    ensures LexLe(a, c)
  {
    if a != [] && b != [] && c != [] && a[0] == b[0] == c[0] {
      LexTransitive(a[1..], b[1..], c[1..]);
    }
  }

  lemma EntryOrderIsTotal()
    ensures TotalPreorder(EntryOrder())
  {
    var le := EntryOrder();
    forall a, b ensures le(a, b) || le(b, a) {
      LexTotal(a.key, b.key);
    }
    forall a, b, c | le(a, b) && le(b, c) ensures le(a, c) {
      LexTransitive(a.key, b.key, c.key);
    }
  }

  // ------------------------------------------------- quoted strings are read back unambiguously

  lemma HexDigitInjective(m: int, n: int)
    requires 0 <= m < 16 && 0 <= n < 16 && HexDigit(m) == HexDigit(n)
    ensures m == n
  {
  }

  /** A code unit is the number that its four digits write. */
  lemma FourDigits(c: Unit)
    ensures c == ((c / 0x1000 * 0x10 + c / 0x100 % 0x10) * 0x10 + c / 0x10 % 0x10) * 0x10 + c % 0x10
    ensures 0 <= c / 0x1000 < 0x10
  {
    var b, d := c / 0x10, c / 0x100;
    assert c == b * 0x10 + c % 0x10;
    assert d == b / 0x10 && c / 0x1000 == d / 0x10;
    assert b == d * 0x10 + b % 0x10 && d == c / 0x1000 * 0x10 + d % 0x10;
  }

  lemma Hex4Injective(c: Unit, d: Unit)
    requires Hex4(c) == Hex4(d)
    ensures c == d
  {
    var s, t := Hex4(c), Hex4(d);
    assert s[0] == t[0] && s[1] == t[1] && s[2] == t[2] && s[3] == t[3];
    FourDigits(c);
    FourDigits(d);
    HexDigitInjective(c / 0x1000, d / 0x1000);
    HexDigitInjective(c / 0x100 % 0x10, d / 0x100 % 0x10);
    HexDigitInjective(c / 0x10 % 0x10, d / 0x10 % 0x10);
    HexDigitInjective(c % 0x10, d % 0x10);
  }

  /** How many units the first escape of a string stands for. */
  function Taken(s: Text): nat
    requires s != []
  {
    if IsPair(s) then 2 else 1
  }

  function Head(s: Text): Text
    requires s != []
  {
    if IsPair(s) then [s[0], s[1]] else EscapeUnit(s[0])
  }

  lemma EscapeUnfold(s: Text)
    requires s != []
    ensures Escape(s) == Head(s) + Escape(s[Taken(s)..])
  {
  }

  predicate LongEscape(c: Unit) {
    |EscapeUnit(c)| == 6
  }

  lemma EscapeUnitUnique(c: Unit, d: Unit, x: Text, y: Text)
    requires EscapeUnit(c) + x == EscapeUnit(d) + y
    ensures c == d && x == y
  {
    var p, q := EscapeUnit(c) + x, EscapeUnit(d) + y;
    assert p[0] == q[0] && EscapeUnit(c)[0] == p[0] && EscapeUnit(d)[0] == q[0];
    if p[0] == BACKSLASH {
      assert p[1] == EscapeUnit(c)[1] && q[1] == EscapeUnit(d)[1];
      assert LongEscape(c) <==> LongEscape(d);
      if LongEscape(c) {
        assert p[2..6] == Hex4(c) && q[2..6] == Hex4(d);
        Hex4Injective(c, d);
      }
    }
    assert x == p[|EscapeUnit(c)|..] && y == q[|EscapeUnit(d)|..];
  }

  lemma HeadUnique(s: Text, t: Text, x: Text, y: Text)
    requires s != [] && t != [] && Head(s) + x == Head(t) + y
    ensures Taken(s) == Taken(t) && s[..Taken(s)] == t[..Taken(t)] && x == y
  {
    var p, q := Head(s) + x, Head(t) + y;
    assert p[0] == Head(s)[0] && q[0] == Head(t)[0];
    if IsPair(s) && IsPair(t) {
      assert p[1] == s[1] && q[1] == t[1];
      assert x == p[2..] && y == q[2..];
    } else if !IsPair(s) && !IsPair(t) {
      EscapeUnitUnique(s[0], t[0], x, y);
    }
  }

  lemma HeadIsNotQuote(s: Text)
    requires s != []
    ensures Head(s) != [] && Head(s)[0] != QUOTE
  {
  }

  /** An escaped string, its closing quote, and what follows. */
  function Closed(s: Text, x: Text): Text {
    Escape(s) + [QUOTE] + x
  }

  lemma ClosedUnfold(s: Text, x: Text)
    requires s != []
    ensures Closed(s, x) == Head(s) + Closed(s[Taken(s)..], x)
    ensures Closed(s, x)[0] != QUOTE
  {
    EscapeUnfold(s);
    HeadIsNotQuote(s);
  }

  lemma {:induction false} EscapeUnique(s: Text, t: Text, x: Text, y: Text)
    requires Closed(s, x) == Closed(t, y)
    ensures s == t && x == y
    decreases |s|
  {
    if s != [] { ClosedUnfold(s, x); }
    if t != [] { ClosedUnfold(t, y); }
    if s == [] || t == [] {
      assert Closed([], x)[1..] == x && Closed([], y)[1..] == y;
    } else {
      var s', t' := s[Taken(s)..], t[Taken(t)..];
      HeadUnique(s, t, Closed(s', x), Closed(t', y));
      EscapeUnique(s', t', x, y);
      assert s == s[..Taken(s)] + s' && t == t[..Taken(t)] + t';
    }
  }

  lemma QuoteUnique(s: Text, t: Text, x: Text, y: Text)
    requires Quote(s) + x == Quote(t) + y
    ensures s == t && x == y
  {
    assert (Quote(s) + x)[1..] == Closed(s, x) && (Quote(t) + y)[1..] == Closed(t, y);
    EscapeUnique(s, t, x, y);
  }

  // ------------------------------------------------- values are read back unambiguously

  /** What can follow a value: the end, or a byte that closes or separates. */
  predicate Delimited(x: Text) {
    x == [] || x[0] in {COMMA, RBRACKET, RBRACE}
  }

  lemma NumberUnique(s: Text, t: Text, x: Text, y: Text)
    requires NumberText(s) && NumberText(t) && Delimited(x) && Delimited(y) && s + x == t + y
    ensures s == t && x == y
  {
    NumberNotLonger(s, t, x, y);
    NumberNotLonger(t, s, y, x);
    assert s == (s + x)[..|s|] && t == (t + y)[..|t|] && x == (s + x)[|s|..] && y == (t + y)[|t|..];
  }

  lemma NumberNotLonger(s: Text, t: Text, x: Text, y: Text)
    requires NumberText(t) && Delimited(x) && s + x == t + y
    ensures |t| <= |s|
  {
    assert forall i | 0 <= i < |t| :: NumberUnit((t + y)[i]);
    assert x != [] ==> !NumberUnit((s + x)[|s|]);
  }

  /** The first unit of a text tells the kind of value. */
  function Kind(v: Value): Unit {
    match v
    case Null => 0x6E
    case Infinite(_) => 0x6E
    case Bool(b) => if b then 0x74 else 0x66
    case Num(_) => 0x30
    case Str(_) => QUOTE
    case Arr(_) => LBRACKET
    case Obj(_) => LBRACE
  }

  lemma FirstUnit(v: Value)
    requires Valid(v)
    ensures Stringify(v) != []
    ensures v.Num? ==> Stringify(v)[0] == 0x2D || 0x30 <= Stringify(v)[0] <= 0x39
    ensures !v.Num? ==> Stringify(v)[0] == Kind(v)
  {
  }

  lemma SameKind(v: Value, w: Value, x: Text, y: Text)
    requires Valid(v) && Valid(w) && Stringify(v) + x == Stringify(w) + y
    ensures Kind(v) == Kind(w)
  {
    FirstUnit(v);
    FirstUnit(w);
    assert (Stringify(v) + x)[0] == Stringify(v)[0] && (Stringify(w) + y)[0] == Stringify(w)[0];
  }

  /** The entry of a field. */
  function EntryOf(f: Field): Entry {
    Entry(f.key, Stringify(f.value))
  }

  lemma {:induction false} FieldEntries(fields: seq<Field>)
    ensures forall i | 0 <= i < |fields| :: StringifyFields(fields)[i] == EntryOf(fields[i])
  {
    if fields != [] {
      FieldEntries(fields[1..]);
    }
  }

  lemma {:induction false} ItemTexts(items: seq<Value>)
    ensures forall i | 0 <= i < |items| :: StringifyItems(items)[i] == Stringify(items[i])
  {
    if items != [] {
      ItemTexts(items[1..]);
    }
  }

  predicate HasEntry(fields: seq<Field>, e: Entry) {
    exists j :: 0 <= j < |fields| && EntryOf(fields[j]) == e
  }

  /** The sorted entries of an object. */
  function SortedEntries(fields: seq<Field>): seq<Entry> {
    StableSort(StringifyFields(fields), EntryOrder())
  }

  lemma SortedEntriesMembers(fields: seq<Field>)
    ensures |SortedEntries(fields)| == |fields|
    ensures forall e | e in SortedEntries(fields) :: HasEntry(fields, e)
    ensures forall i | 0 <= i < |fields| :: EntryOf(fields[i]) in SortedEntries(fields)
  {
    EntryOrderIsTotal();
    StableSortMembers(StringifyFields(fields), EntryOrder());
    FieldEntries(fields);
    forall i | 0 <= i < |fields| ensures EntryOf(fields[i]) in SortedEntries(fields) {
      assert StringifyFields(fields)[i] in StringifyFields(fields);
    }
  }

  function EntryTexts(entries: seq<Entry>): seq<Text> {
    Map(entries, (e: Entry) => EntryText(e))
  }

  /** A list text and what follows it, taken apart at its first element. */
  lemma JoinUnfold(texts: seq<Text>, x: Text)
    requires texts != []
    ensures Join(texts) + x == texts[0] + (if |texts| == 1 then x else [COMMA] + (Join(texts[1..]) + x))
  {
  }

  /** Two values with one text, whatever delimiter follows, are the same up to key order. */
  lemma {:induction false} ReadValue(v: Value, w: Value, x: Text, y: Text)
    requires Valid(v) && Valid(w) && Delimited(x) && Delimited(y)
    requires Stringify(v) + x == Stringify(w) + y
    ensures Same(v, w) && Stringify(v) == Stringify(w) && x == y
    decreases v, 1, 0
  {
    SameKind(v, w, x, y);
    match v
    case Num(text) => NumberUnique(text, w.text, x, y);
    case Str(s) => QuoteUnique(s, w.s, x, y);
    case Arr(items) => ReadArray(v, w, x, y);
    case Obj(fields) => ReadObject(v, w, x, y);
    case _ =>
      assert x == (Stringify(v) + x)[|Stringify(v)|..] && y == (Stringify(w) + y)[|Stringify(w)|..];
  }

  /** The text of an array after its bracket. */
  lemma ArrayBody(v: Value, x: Text)
    requires v.Arr?
    ensures Stringify(v) + x == [LBRACKET] + (Join(ItemsFrom(v, 0)) + ([RBRACKET] + x))
  {
    assert ItemsFrom(v, 0) == StringifyItems(v.items);
  }

  lemma ReadArray(v: Value, w: Value, x: Text, y: Text)
    requires v.Arr? && w.Arr? && Valid(v) && Valid(w)
    requires Stringify(v) + x == Stringify(w) + y
    ensures Same(v, w) && Stringify(v) == Stringify(w) && x == y
    decreases v, 0, |v.items| + 2
  {
    ArrayBody(v, x);
    ArrayBody(w, y);
    SameTail(LBRACKET, Join(ItemsFrom(v, 0)) + ([RBRACKET] + x), Join(ItemsFrom(w, 0)) + ([RBRACKET] + y));
    ReadItems(v, w, 0, [RBRACKET] + x, [RBRACKET] + y);
    SameTail(RBRACKET, x, y);
    SameItemTexts(v, w);
  }

  /** The texts of the items from position `i` on. */
  function ItemsFrom(v: Value, i: nat): (texts: seq<Text>)
    requires v.Arr? && i <= |v.items|
    ensures |texts| == |v.items| - i
  {
    StringifyItems(v.items)[i..]
  }

  lemma ItemsFromUnfold(v: Value, i: nat, x: Text)
    requires v.Arr? && i < |v.items|
    ensures ItemsFrom(v, i)[0] == Stringify(v.items[i]) && ItemsFrom(v, i)[1..] == ItemsFrom(v, i + 1)
    ensures Join(ItemsFrom(v, i)) + x == Stringify(v.items[i]) + AfterItem(ItemsFrom(v, i), x)
  {
    ItemTexts(v.items);
    JoinUnfold(ItemsFrom(v, i), x);
  }

  lemma NoItemsLeft(v: Value, w: Value, i: nat, x: Text, y: Text)
    requires v.Arr? && w.Arr? && Valid(v) && Valid(w) && i <= |v.items| && i <= |w.items|
    requires i == |v.items| || i == |w.items|
    requires x != [] && x[0] == RBRACKET && y != [] && y[0] == RBRACKET
    requires Join(ItemsFrom(v, i)) + x == Join(ItemsFrom(w, i)) + y
    ensures i == |v.items| == |w.items| && x == y
  {
    ItemTexts(v.items);
    ItemTexts(w.items);
    EmptyListText(ItemsFrom(v, i), ItemsFrom(w, i), x, y, v.items[i..], w.items[i..]);
  }

  /** Item `i` of each array has the same value and text. */
  ghost predicate ItemAgrees(v: Value, w: Value, i: nat)
    requires v.Arr? && w.Arr? && i < |v.items| && i < |w.items|
  {
    Same(v.items[i], w.items[i]) && Stringify(v.items[i]) == Stringify(w.items[i])
  }

  /** The items at position `i`, and what follows them. */
  lemma ReadItem(v: Value, w: Value, i: nat, x: Text, y: Text)
    requires v.Arr? && w.Arr? && Valid(v) && Valid(w) && i < |v.items| && i < |w.items|
    requires x != [] && x[0] == RBRACKET && y != [] && y[0] == RBRACKET
    requires Join(ItemsFrom(v, i)) + x == Join(ItemsFrom(w, i)) + y
    ensures ItemAgrees(v, w, i) && AfterItem(ItemsFrom(v, i), x) == AfterItem(ItemsFrom(w, i), y)
    decreases v, 0, 0
  {
    ItemsFromUnfold(v, i, x);
    ItemsFromUnfold(w, i, y);
    ReadValue(v.items[i], w.items[i], AfterItem(ItemsFrom(v, i), x), AfterItem(ItemsFrom(w, i), y));
  }

  lemma RestOfItems(v: Value, w: Value, i: nat, x: Text, y: Text)
    requires v.Arr? && w.Arr? && i < |v.items| && i < |w.items|
    requires x != [] && x[0] == RBRACKET && y != [] && y[0] == RBRACKET
    requires AfterItem(ItemsFrom(v, i), x) == AfterItem(ItemsFrom(w, i), y)
    ensures i + 1 == |v.items| <==> i + 1 == |w.items|
    ensures i + 1 == |v.items| ==> x == y
    ensures i + 1 < |v.items| ==> Join(ItemsFrom(v, i + 1)) + x == Join(ItemsFrom(w, i + 1)) + y
  {
    ItemsFromUnfold(v, i, x);
    ItemsFromUnfold(w, i, y);
    RestAgree(ItemsFrom(v, i), ItemsFrom(w, i), x, y);
  }

  /** The items from position `i` on. */
  lemma ReadItems(v: Value, w: Value, i: nat, x: Text, y: Text)
    requires v.Arr? && w.Arr? && Valid(v) && Valid(w) && i <= |v.items| && i <= |w.items|
    requires x != [] && x[0] == RBRACKET && y != [] && y[0] == RBRACKET
    requires Join(ItemsFrom(v, i)) + x == Join(ItemsFrom(w, i)) + y
    ensures |v.items| == |w.items| && x == y
    ensures forall k | i <= k < |v.items| :: ItemAgrees(v, w, k)
    decreases v, 0, |v.items| - i + 1
  {
    if i == |v.items| || i == |w.items| {
      NoItemsLeft(v, w, i, x, y);
    } else {
      ReadItem(v, w, i, x, y);
      RestOfItems(v, w, i, x, y);
      if i + 1 < |v.items| {
        ReadItems(v, w, i + 1, x, y);
      }
    }
  }

  lemma SameItemTexts(v: Value, w: Value)
    requires v.Arr? && w.Arr? && |v.items| == |w.items|
    requires forall k | 0 <= k < |v.items| :: ItemAgrees(v, w, k)
    ensures Same(v, w) && Stringify(v) == Stringify(w)
  {
    forall k | 0 <= k < |v.items|
      ensures Same(v.items[k], w.items[k]) && Stringify(v.items[k]) == Stringify(w.items[k])
    {
      assert ItemAgrees(v, w, k);
    }
    ItemTexts(v.items);
    ItemTexts(w.items);
    assert StringifyItems(v.items) == StringifyItems(w.items);
  }

  /** What follows the first element of a list text. */
  function AfterItem(s: seq<Text>, x: Text): Text
    requires s != []
  {
    if |s| == 1 then x else [COMMA] + (Join(s[1..]) + x)
  }

  lemma RestAgree(s: seq<Text>, t: seq<Text>, x: Text, y: Text)
    requires s != [] && t != [] && AfterItem(s, x) == AfterItem(t, y)
    requires x != [] && x[0] == RBRACKET && y != [] && y[0] == RBRACKET
    ensures |s| == 1 <==> |t| == 1
    ensures |s| == 1 ==> x == y
    ensures |s| > 1 ==> Join(s[1..]) + x == Join(t[1..]) + y
  {
    if |s| > 1 && |t| > 1 {
      SameTail(COMMA, Join(s[1..]) + x, Join(t[1..]) + y);
    }
  }

  lemma FirstOfList(s: seq<Text>, x: Text)
    ensures s == [] ==> Join(s) + x == x
    ensures s != [] && s[0] != [] ==> (Join(s) + x)[0] == s[0][0]
  {
    if s != [] {
      JoinUnfold(s, x);
    }
  }

  /** An empty list has an empty text, and only it has. */
  lemma EmptyListText(s: seq<Text>, t: seq<Text>, x: Text, y: Text, vs: seq<Value>, ws: seq<Value>)
    requires |s| == |vs| && |t| == |ws| && (s == [] || t == [])
    requires forall k | 0 <= k < |vs| :: Valid(vs[k]) && s[k] == Stringify(vs[k])
    requires forall k | 0 <= k < |ws| :: Valid(ws[k]) && t[k] == Stringify(ws[k])
    requires x != [] && x[0] == RBRACKET && y != [] && y[0] == RBRACKET
    requires Join(s) + x == Join(t) + y
    ensures s == [] && t == [] && x == y
  {
    FirstOfList(s, x);
    FirstOfList(t, y);
    if s != [] { FirstUnit(vs[0]); }
    if t != [] { FirstUnit(ws[0]); }
  }

  lemma ReadObject(v: Value, w: Value, x: Text, y: Text)
    requires v.Obj? && w.Obj? && Valid(v) && Valid(w)
    requires Stringify(v) + x == Stringify(w) + y
    ensures Same(v, w) && Stringify(v) == Stringify(w) && x == y
    decreases v, 0, |v.fields| + 1
  {
    var es, fs := SortedEntries(v.fields), SortedEntries(w.fields);
    SortedEntriesMembers(v.fields);
    SortedEntriesMembers(w.fields);
    ObjectBody(v, x);
    ObjectBody(w, y);
    SameTail(LBRACE, Join(EntryTexts(es)) + ([RBRACE] + x), Join(EntryTexts(fs)) + ([RBRACE] + y));
    ReadEntries(v, w, es, fs, [RBRACE] + x, [RBRACE] + y);
    SameTail(RBRACE, x, y);
    forall i | 0 <= i < |v.fields| ensures Matched(EntryOf(v.fields[i]), v, w) {
      assert EntryOf(v.fields[i]) in es;
    }
    MatchedIsSame(v, w);
  }

  /** The text of an object after its brace. */
  lemma ObjectBody(v: Value, x: Text)
    requires v.Obj?
    ensures Stringify(v) + x == [LBRACE] + (Join(EntryTexts(SortedEntries(v.fields))) + ([RBRACE] + x))
  {
  }

  lemma SameTail(c: Unit, x: Text, y: Text)
    requires [c] + x == [c] + y
    ensures x == y
  {
    assert x == ([c] + x)[1..] && y == ([c] + y)[1..];
  }

  lemma MatchedField(v: Value, w: Value, i: nat) returns (j: nat)
    requires v.Obj? && w.Obj? && Valid(v) && i < |v.fields| && Matched(EntryOf(v.fields[i]), v, w)
    ensures j < |w.fields| && v.fields[i].key == w.fields[j].key && Same(v.fields[i].value, w.fields[j].value)
  {
    var a: nat, b: nat :| a < |v.fields| && b < |w.fields| && PairFor(EntryOf(v.fields[i]), v, w, a, b);
    assert v.fields[a].key == v.fields[i].key;
    assert a == i;
    j := b;
  }

  lemma MatchedIsSame(v: Value, w: Value)
    requires v.Obj? && w.Obj? && Valid(v) && |v.fields| == |w.fields|
    requires forall i | 0 <= i < |v.fields| :: Matched(EntryOf(v.fields[i]), v, w)
    ensures Same(v, w)
  {
    forall i | 0 <= i < |v.fields|
      ensures HasSame(w.fields, v.fields[i])
    {
      var j := MatchedField(v, w, i);
    }
  }

  /** The entry of a field of `v` and of a field of `w` with the same value. */
  ghost predicate PairFor(e: Entry, v: Value, w: Value, a: nat, b: nat)
    requires v.Obj? && w.Obj? && a < |v.fields| && b < |w.fields|
  {
    e == EntryOf(v.fields[a]) && e == EntryOf(w.fields[b]) && Same(v.fields[a].value, w.fields[b].value)
  }

  ghost predicate Matched(e: Entry, v: Value, w: Value)
    requires v.Obj? && w.Obj?
  {
    exists a: nat, b: nat :: a < |v.fields| && b < |w.fields| && PairFor(e, v, w, a, b)
  }

  lemma ReadEntries(v: Value, w: Value, es: seq<Entry>, fs: seq<Entry>, x: Text, y: Text)
    requires v.Obj? && w.Obj? && Valid(v) && Valid(w)
    requires forall e | e in es :: HasEntry(v.fields, e)
    requires forall e | e in fs :: HasEntry(w.fields, e)
    requires x != [] && x[0] == RBRACE && y != [] && y[0] == RBRACE
    requires Join(EntryTexts(es)) + x == Join(EntryTexts(fs)) + y
    ensures es == fs && x == y && forall e | e in es :: Matched(e, v, w)
    decreases v, 0, |es|
  {
    if es == [] || fs == [] {
      EmptyObjectText(es, fs, x, y);
    } else {
      var x', y' := AfterFirst(es, x), AfterFirst(fs, y);
      FirstEntry(es, x);
      FirstEntry(fs, y);
      assert es[0] in es && fs[0] in fs;
      var a :| 0 <= a < |v.fields| && EntryOf(v.fields[a]) == es[0];
      var b :| 0 <= b < |w.fields| && EntryOf(w.fields[b]) == fs[0];
      ReadEntry(v, w, a, b, x', y');
      assert PairFor(es[0], v, w, a, b);
      if |es| > 1 {
        SameTail(COMMA, Join(EntryTexts(es[1..])) + x, Join(EntryTexts(fs[1..])) + y);
        ReadEntries(v, w, es[1..], fs[1..], x, y);
      }
      assert es == [es[0]] + es[1..] && fs == [fs[0]] + fs[1..];
    }
  }

  /** What follows the first entry. */
  function AfterFirst(es: seq<Entry>, x: Text): Text
    requires es != []
  {
    if |es| == 1 then x else [COMMA] + (Join(EntryTexts(es[1..])) + x)
  }

  lemma FirstEntry(es: seq<Entry>, x: Text)
    requires es != []
    ensures Join(EntryTexts(es)) + x == EntryText(es[0]) + AfterFirst(es, x)
  {
    JoinUnfold(EntryTexts(es), x);
    assert EntryTexts(es)[1..] == EntryTexts(es[1..]);
  }

  lemma EntrySplit(e: Entry, x: Text)
    ensures EntryText(e) + x == Quote(e.key) + ([COLON] + (e.text + x))
  {
  }

  /** One `"key":value`. */
  lemma ReadEntry(v: Value, w: Value, a: nat, b: nat, x: Text, y: Text)
    requires v.Obj? && w.Obj? && Valid(v) && Valid(w) && a < |v.fields| && b < |w.fields|
    requires Delimited(x) && Delimited(y)
    requires EntryText(EntryOf(v.fields[a])) + x == EntryText(EntryOf(w.fields[b])) + y
    ensures EntryOf(v.fields[a]) == EntryOf(w.fields[b]) && Same(v.fields[a].value, w.fields[b].value) && x == y
    decreases v, 0, 0
  {
    var f, g := v.fields[a], w.fields[b];
    EntrySplit(EntryOf(f), x);
    EntrySplit(EntryOf(g), y);
    QuoteUnique(f.key, g.key, [COLON] + (Stringify(f.value) + x), [COLON] + (Stringify(g.value) + y));
    SameTail(COLON, Stringify(f.value) + x, Stringify(g.value) + y);
    ReadValue(f.value, g.value, x, y);
  }

  lemma EmptyObjectText(es: seq<Entry>, fs: seq<Entry>, x: Text, y: Text)
    requires es == [] || fs == []
    requires x != [] && x[0] == RBRACE && y != [] && y[0] == RBRACE
    requires Join(EntryTexts(es)) + x == Join(EntryTexts(fs)) + y
    ensures es == [] && fs == [] && x == y
  {
    FirstOfList(EntryTexts(es), x);
    FirstOfList(EntryTexts(fs), y);
    if es != [] { EntryTextStart(es); }
    if fs != [] { EntryTextStart(fs); }
  }

  lemma EntryTextStart(es: seq<Entry>)
    requires es != []
    ensures EntryTexts(es)[0] != [] && EntryTexts(es)[0][0] == QUOTE
  {
  }

  // ------------------------------------------------- key order does not matter

  lemma {:induction false} SameStringify(v: Value, w: Value)
    requires Valid(v) && Valid(w) && Same(v, w)
    ensures Stringify(v) == Stringify(w)
    decreases v
  {
    match v
    case Arr(xs) =>
      forall i | 0 <= i < |xs| ensures Stringify(xs[i]) == Stringify(w.items[i]) {
        SameStringify(xs[i], w.items[i]);
      }
      ItemTexts(xs);
      ItemTexts(w.items);
      assert StringifyItems(xs) == StringifyItems(w.items);
    case Obj(fs) =>
      forall i | 0 <= i < |fs| ensures HasEntry(w.fields, EntryOf(fs[i])) {
        assert HasSame(w.fields, fs[i]);
        var j :| 0 <= j < |w.fields| && fs[i].key == w.fields[j].key && Same(fs[i].value, w.fields[j].value);
        SameStringify(fs[i].value, w.fields[j].value);
        assert EntryOf(fs[i]) == EntryOf(w.fields[j]);
      }
      SameEntriesSortAlike(fs, w.fields);
    case _ =>
  }

  lemma SameEntriesSortAlike(fs: seq<Field>, gs: seq<Field>)
    requires DistinctKeys(fs) && DistinctKeys(gs) && |fs| == |gs|
    requires forall i | 0 <= i < |fs| :: HasEntry(gs, EntryOf(fs[i]))
    ensures SortedEntries(fs) == SortedEntries(gs)
  {
    var es, es' := StringifyFields(fs), StringifyFields(gs);
    FieldEntries(fs);
    FieldEntries(gs);
    forall e | e in es ensures e in es' {
      var i :| 0 <= i < |es| && es[i] == e;
      var j :| 0 <= j < |gs| && EntryOf(fs[i]) == EntryOf(gs[j]);
      assert es'[j] == e;
    }
    DistinctPermutation(es, es');
    EntryOrderIsTotal();
    forall a, b | a in es && b in es && EntryOrder()(a, b) && EntryOrder()(b, a) ensures a == b {
      LexAntisymmetric(a.key, b.key);
    }
    SortForgetsOrder(es, es', EntryOrder());
  }

  /** The stringifier is a normal form: equal texts exactly for values that are equal up to the order
      of object keys, where numbers too large to be held count as null. */
  lemma StringifyIsNormalForm(v: Value, w: Value)
    requires Valid(v) && Valid(w)
    ensures Stringify(v) == Stringify(w) <==> Same(v, w)
  {
    if Stringify(v) == Stringify(w) {
      assert Stringify(v) + [] == Stringify(w) + [];
      ReadValue(v, w, [], []);
    }
    if Same(v, w) {
      SameStringify(v, w);
    }
  }
}
