/** The raw-mode decoder of key presses. */
module KeyDecoder {
  // A buffer of UTF-16 code units is drained key by key. Control sequences are a narrowed form of those of
  // ECMA-48, section 5.4.

  import opened CodeUnits
  import opened Options

  datatype Name =
    | Up | Down | Left | Right | PageUp | PageDown | Home | End | Return | Tab | Backspace | Delete | Escape

  datatype Key = Key(input: Text, name: Option<Name>, ctrl: bool, shift: bool)

  function Named(name: Name): Key {
    Key([], Some(name), false, false)
  }

  function Typed(input: Text): Key {
    Key(input, None, false, false)
  }

  const ESC: Unit := 0x1B
  const MAX_SEQUENCE_LENGTH := 16

  /** `[A-Za-z~]`. */
  predicate IsFinal(c: Unit) {
    0x41 <= c <= 0x5A || 0x61 <= c <= 0x7A || c == 0x7E
  }

  // ------------------------------------------------- complete sequences

  /** The digits of `1;<digits><letter>`, and the letter. */
  predicate IsModifiedArrow(body: Text) {
    && |body| >= 4 && body[0] == 0x31 && body[1] == 0x3B
    && 0x41 <= body[|body| - 1] <= 0x44
    && forall i | 2 <= i < |body| - 1 :: 0x30 <= body[i] <= 0x39
  }

  function Arrow(letter: Unit): Name {
    if letter == 0x41 then Up else if letter == 0x42 then Down else if letter == 0x43 then Right else Left
  }

  function DecodeSequence(sequence: Text): Option<Key>
    requires |sequence| >= 3
  {
    var body := sequence[2..];
    if body == [0x41] then Some(Named(Up))
    else if body == [0x42] then Some(Named(Down))
    else if body == [0x43] then Some(Named(Right))
    else if body == [0x44] then Some(Named(Left))
    else if body == [0x48] || body == [0x31, 0x7E] || body == [0x37, 0x7E] then Some(Named(Home))
    else if body == [0x46] || body == [0x34, 0x7E] || body == [0x38, 0x7E] then Some(Named(End))
    else if body == [0x35, 0x7E] then Some(Named(PageUp))
    else if body == [0x36, 0x7E] then Some(Named(PageDown))
    else if body == [0x33, 0x7E] then Some(Named(Delete))
    else if body == [0x5A] then Some(Named(Tab).(shift := true))
    else if IsModifiedArrow(body) then
      // the modifier is one more than the bits, so Shift is on when the number is even
      Some(Named(Arrow(body[|body| - 1])).(shift := body[|body| - 2] % 2 == 0))
    else None
  }

  // ------------------------------------------------- one key

  /** Either more input is needed, or some units are consumed, perhaps for a key. */
  datatype Reading = Wait | Take(consumed: nat, key: Option<Key>)

  /** The first position from `i` on that holds a final unit, or the end. */
  function FinalFrom(buffer: Text, i: nat): (r: nat)
    requires i <= |buffer|
    ensures i <= r <= |buffer|
    ensures forall k | i <= k < r :: !IsFinal(buffer[k])
    ensures r < |buffer| ==> IsFinal(buffer[r])
    decreases |buffer| - i
  {
    if i == |buffer| || IsFinal(buffer[i]) then i else FinalFrom(buffer, i + 1)
  }

  predicate StartsSequence(buffer: Text) {
    |buffer| >= 2 && buffer[0] == ESC && (buffer[1] == 0x5B || buffer[1] == 0x4F)
  }

  function ReadEscape(buffer: Text): Reading
    requires buffer != []
  {
    if |buffer| == 1 then Wait
    else if buffer[1] != 0x5B && buffer[1] != 0x4F then Take(1, Some(Named(Escape)))
    else
      var index := FinalFrom(buffer, 2);
      if index == |buffer| then
        if |buffer| > MAX_SEQUENCE_LENGTH then Take(|buffer|, None) else Wait
      else Take(index + 1, DecodeSequence(buffer[..index + 1]))
  }

  function ReadOne(buffer: Text): (r: Reading)
    requires buffer != []
    ensures r.Take? ==> 0 < r.consumed <= |buffer|
  {
    var c := buffer[0];
    if c == ESC then ReadEscape(buffer)
    else if c == 0x0D || c == 0x0A then Take(1, Some(Named(Return)))
    else if c == 0x09 then Take(1, Some(Named(Tab)))
    else if c == 0x7F || c == 0x08 then Take(1, Some(Named(Backspace)))
    else if c < 0x20 then Take(1, Some(Key([c + 96], None, true, false)))
    else if |buffer| > 1 && IsHigh(c) && IsLow(buffer[1]) then Take(2, Some(Typed([c, buffer[1]])))
    else Take(1, Some(Typed([c])))
  }

  datatype Decoded = Decoded(keys: seq<Key>, pending: Text)

  function KeyList(key: Option<Key>): seq<Key> {
    if key.Some? then [key.value] else []
  }

  function Prepend(keys: seq<Key>, d: Decoded): Decoded {
    Decoded(keys + d.keys, d.pending)
  }

  /** Draining a buffer: every complete key press, and what stays pending. */
  function Decode(buffer: Text): Decoded
    decreases |buffer|
  {
    if buffer == [] then Decoded([], [])
    else match ReadOne(buffer)
      case Wait => Decoded([], buffer)
      case Take(consumed, key) => Prepend(KeyList(key), Decode(buffer[consumed..]))
  }

  lemma PrependTwice(a: seq<Key>, b: seq<Key>, d: Decoded)
    ensures Prepend(a, Prepend(b, d)) == Prepend(a + b, d)
  {
    assert a + (b + d.keys) == (a + b) + d.keys;
  }

  /** What reading one key means for what is drained after `keys`. */
  lemma DrainStep(keys: seq<Key>, s: Text)
    requires s != []
    ensures ReadOne(s).Wait? ==> Prepend(keys, Decode(s)) == Decoded(keys, s)
    ensures ReadOne(s).Take? ==>
      Prepend(keys, Decode(s)) == Prepend(keys + KeyList(ReadOne(s).key), Decode(s[ReadOne(s).consumed..]))
  {
    var r := ReadOne(s);
    if r.Wait? {
      assert keys + [] == keys;
    } else {
      PrependTwice(keys, KeyList(r.key), Decode(s[r.consumed..]));
    }
  }

  class Decoder {
    var buffer: Text

    constructor ()
      ensures buffer == []
    {
      buffer := [];
    }

    /** Feeds raw text and drains every complete key press it contains. */
    method Push(chunk: Text) returns (keys: seq<Key>)
      modifies this
      ensures Decoded(keys, buffer) == Decode(old(buffer) + chunk)
    {
      buffer := buffer + chunk;
      keys := [];
      ghost var all := Decode(buffer);
      assert Prepend(keys, all) == all;
      while |buffer| > 0
        invariant Prepend(keys, Decode(buffer)) == all
        decreases |buffer|
      {
        DrainStep(keys, buffer);
        var next := NextReading();
        if next.Wait? {
          return;
        }
        buffer := buffer[next.consumed..];
        keys := keys + KeyList(next.key);
      }
      assert keys + [] == keys;
    }

    method NextReading() returns (next: Reading)
      requires buffer != []
      ensures next == ReadOne(buffer)
    {
      if buffer[0] == ESC {
        next := ReadEscapeSequence();
      } else {
        next := ReadOne(buffer);
      }
    }

    method ReadEscapeSequence() returns (next: Reading)
      requires buffer != []
      ensures next == ReadEscape(buffer)
    {
      if |buffer| == 1 {
        return Wait;
      }
      if buffer[1] != 0x5B && buffer[1] != 0x4F {
        return Take(1, Some(Named(Escape)));
      }
      var index := 2;
      while index < |buffer| && !IsFinal(buffer[index])
        invariant 2 <= index <= |buffer|
        invariant FinalFrom(buffer, 2) == FinalFrom(buffer, index)
      {
        index := index + 1;
      }
      if index >= |buffer| {
        return if |buffer| > MAX_SEQUENCE_LENGTH then Take(|buffer|, None) else Wait;
      }
      next := Take(index + 1, DecodeSequence(buffer[..index + 1]));
    }

    /** Resolves a lone pending Escape. */
    method FlushPendingEscape() returns (key: Option<Key>)
      modifies this
      ensures old(buffer) == [ESC] ==> key == Some(Named(Escape)) && buffer == []
      ensures old(buffer) != [ESC] ==> key == None && buffer == old(buffer)
    {
      if buffer != [ESC] {
        return None;
      }
      buffer := [];
      key := Some(Named(Escape));
    }
  }

  // ------------------------------------------------- what stays pending

  /** What draining leaves is empty, or the beginning of an escape sequence of at most 16 units. */
  lemma {:induction false} PendingIsShort(buffer: Text)
    ensures var p := Decode(buffer).pending;
            p == [] || (p[0] == ESC && |p| <= MAX_SEQUENCE_LENGTH && ReadOne(p).Wait?)
    decreases |buffer|
  {
    if buffer != [] && ReadOne(buffer).Take? {
      PendingIsShort(buffer[ReadOne(buffer).consumed..]);
    }
  }

  /** What is pending is a suffix of what came in: nothing is invented or reordered. */
  lemma {:induction false} PendingIsSuffix(buffer: Text)
    ensures var p := Decode(buffer).pending;
            |p| <= |buffer| && p == buffer[|buffer| - |p|..]
    decreases |buffer|
  {
    if buffer != [] && ReadOne(buffer).Take? {
      PendingIsSuffix(buffer[ReadOne(buffer).consumed..]);
    }
  }

  // ------------------------------------------------- independence of chunks

  /** An incomplete sequence that is too long to keep waiting for. */
  predicate Overlong(buffer: Text) {
    StartsSequence(buffer) && |buffer| > MAX_SEQUENCE_LENGTH && forall k | 2 <= k < |buffer| :: !IsFinal(buffer[k])
  }

  /** Draining `buffer` ends by dropping an over-long sequence, or by taking a lone high surrogate. */
  predicate EndsBadly(buffer: Text)
    decreases |buffer|
  {
    if buffer == [] || ReadOne(buffer).Wait? then false
    else if ReadOne(buffer).consumed == |buffer| then Overlong(buffer) || (IsHigh(buffer[0]) && |buffer| == 1)
    else EndsBadly(buffer[ReadOne(buffer).consumed..])
  }

  lemma FinalFromIs(s: Text, from: nat, at: nat)
    requires from <= at < |s| && IsFinal(s[at]) && forall k | from <= k < at :: !IsFinal(s[k])
    ensures FinalFrom(s, from) == at
  {
    var i := FinalFrom(s, from);
    assert i <= at;
  }

  /** Later input does not change how the first key is read. */
  lemma ReadingIsStable(s: Text, b: Text)
    requires s != [] && ReadOne(s).Take?
    requires ReadOne(s).consumed == |s| ==> !Overlong(s) && !(IsHigh(s[0]) && |s| == 1)
    ensures ReadOne(s + b) == ReadOne(s)
  {
    if StartsSequence(s) {
      var i := FinalFrom(s, 2);
      assert forall k | 2 <= k <= i :: (s + b)[k] == s[k];
      FinalFromIs(s + b, 2, i);
      assert (s + b)[..i + 1] == s[..i + 1];
    }
  }

  /** What a second push makes of the state after a first one. */
  function Then(d: Decoded, b: Text): Decoded {
    Prepend(d.keys, Decode(d.pending + b))
  }

  lemma ThenPrepend(keys: seq<Key>, d: Decoded, b: Text)
    ensures Then(Prepend(keys, d), b) == Prepend(keys, Then(d, b))
  {
    PrependTwice(keys, d.keys, Decode(d.pending + b));
  }

  /** One stable step, with and without the later input. */
  lemma StableStep(s: Text, b: Text)
    requires s != [] && ReadOne(s).Take?
    requires ReadOne(s).consumed == |s| ==> !Overlong(s) && !(IsHigh(s[0]) && |s| == 1)
    ensures var r := ReadOne(s);
            && Decode(s + b) == Prepend(KeyList(r.key), Decode(s[r.consumed..] + b))
            && Then(Decode(s), b) == Prepend(KeyList(r.key), Then(Decode(s[r.consumed..]), b))
  {
    var r := ReadOne(s);
    ReadingIsStable(s, b);
    assert (s + b)[r.consumed..] == s[r.consumed..] + b;
    ThenPrepend(KeyList(r.key), Decode(s[r.consumed..]), b);
  }

  lemma {:induction false} SafeSplit(s: Text, b: Text)
    requires !EndsBadly(s)
    ensures Decode(s + b) == Then(Decode(s), b)
    decreases |s|
  {
    if s == [] {
      assert s + b == b && [] + b == b;
      assert Prepend([], Decode(b)) == Decode(b);
    } else if ReadOne(s).Take? {
      StableStep(s, b);
      SafeSplit(s[ReadOne(s).consumed..], b);
    } else {
      assert Prepend([], Decode(s + b)) == Decode(s + b);
    }
  }

  /** Input that tells the two ways of pushing apart. */
  lemma {:induction false} UnsafeSplit(s: Text) returns (b: Text)
    requires EndsBadly(s)
    ensures Decode(s + b) != Then(Decode(s), b)
    decreases |s|
  {
    var r := ReadOne(s);
    if Overlong(s) {
      b := LetterCompletes(s);
    } else if r.consumed == |s| {
      assert s == [s[0]];
      b := [0xDC00];
      PairedSurrogate(s[0]);
    } else {
      var rest := s[r.consumed..];
      b := UnsafeSplit(rest);
      StableStep(s, b);
      SameTail(KeyList(r.key), Decode(rest + b).keys, Then(Decode(rest), b).keys);
    }
  }

  lemma SameTail(p: seq<Key>, x: seq<Key>, y: seq<Key>)
    ensures p + x == p + y ==> x == y
  {
    assert (p + x)[|p|..] == x && (p + y)[|p|..] == y;
  }

  /** A letter after a dropped sequence is typed; after the kept one it would end the sequence. */
  lemma LetterCompletes(s: Text) returns (b: Text)
    requires Overlong(s)
    ensures Decode(s + b) != Then(Decode(s), b)
  {
    b := [0x61];
    OverlongIsDropped(s);
    LetterEnds(s);
    TypedLetter();
    assert [] + b == b;
  }

  lemma OverlongIsDropped(s: Text)
    requires Overlong(s)
    ensures Decode(s) == Decoded([], [])
  {
    assert FinalFrom(s, 2) == |s| && ReadOne(s) == Take(|s|, None);
    assert s[|s|..] == [];
  }

  lemma LetterEnds(s: Text)
    requires Overlong(s)
    ensures Decode(s + [0x61]) == Decoded([], [])
  {
    var t := s + [0x61];
    assert forall k | 2 <= k < |s| :: t[k] == s[k];
    FinalFromIs(t, 2, |s|);
    assert t[..|s| + 1] == t && t[2..][|t[2..]| - 1] == 0x61 && |t[2..]| > 2;
    assert DecodeSequence(t) == None;
    assert ReadOne(t) == Take(|t|, None);
    assert t[|t|..] == [];
  }

  lemma TypedLetter()
    ensures |Decode([0x61]).keys| == 1
  {
    var b: Text := [0x61];
    assert b[1..] == [];
    assert Decode(b).keys == [Typed([0x61])] + Decode([]).keys;
  }

  lemma PairedSurrogate(h: Unit)
    requires IsHigh(h)
    ensures |Decode([h] + [0xDC00]).keys| == 1 && |Then(Decode([h]), [0xDC00]).keys| == 2
  {
    var pair: Text := [h] + [0xDC00];
    assert ReadOne(pair) == Take(2, Some(Typed([h, 0xDC00]))) && pair[2..] == [];
    assert [h][1..] == [] && Decode([h]) == Decoded([Typed([h])], []);
    var low: Text := [0xDC00];
    assert [] + low == low && low[1..] == [];
    assert Decode(low) == Decoded([Typed(low)], []);
  }

  /** Pushing `a` and then any `b` is pushing them at once, for every `b`, exactly when draining `a`
      drops no over-long sequence and does not end in a lone high surrogate. Here `s` is the buffer
      with `a` appended. */
  lemma ChunkIndependenceIff(s: Text)
    ensures (forall b: Text :: Decode(s + b) == Then(Decode(s), b)) <==> !EndsBadly(s)
  {
    if EndsBadly(s) {
      var b := UnsafeSplit(s);
    } else {
      forall b: Text ensures Decode(s + b) == Then(Decode(s), b) {
        SafeSplit(s, b);
      }
    }
  }

  // ------------------------------------------------- typed text

  predicate IsPlainText(s: Text) {
    forall c | c in s :: c >= 0x20 && c != 0x7F
  }

  function Inputs(keys: seq<Key>): Text {
    if keys == [] then [] else keys[0].input + Inputs(keys[1..])
  }

  /** The units of the first character. */
  function CharLength(s: Text): nat
    requires s != []
  {
    if IsPair(s) then 2 else 1
  }

  lemma ReadPlain(s: Text)
    requires IsPlainText(s) && s != []
    ensures ReadOne(s) == Take(CharLength(s), Some(Typed(s[..CharLength(s)])))
  {
    assert s[0] in s;
    assert s[..1] == [s[0]] && (|s| > 1 ==> s[..2] == [s[0], s[1]]);
  }

  lemma DecodePlain(s: Text)
    requires IsPlainText(s) && s != []
    ensures var n := CharLength(s);
            Decode(s).keys == [Typed(s[..n])] + Decode(s[n..]).keys && Decode(s).pending == Decode(s[n..]).pending
  {
    ReadPlain(s);
  }

  lemma PlainSuffix(s: Text, n: nat)
    requires IsPlainText(s) && n <= |s|
    ensures IsPlainText(s[n..])
  {
    assert forall c | c in s[n..] :: c in s;
  }

  /** Typed text comes out whole, in order, as unnamed keys, and nothing stays pending. */
  lemma {:induction false} PlainTextIsTyped(s: Text)
    requires IsPlainText(s)
    ensures Inputs(Decode(s).keys) == s && Decode(s).pending == []
    ensures forall k | k in Decode(s).keys :: k == Typed(k.input)
    decreases |s|
  {
    if s != [] {
      var n := CharLength(s);
      PlainSuffix(s, n);
      DecodePlain(s);
      PlainTextIsTyped(s[n..]);
      InputsOfOneMore(Typed(s[..n]), Decode(s[n..]).keys);
      assert s == s[..n] + s[n..];
    }
  }

  lemma InputsOfOneMore(key: Key, keys: seq<Key>)
    ensures Inputs([key] + keys) == key.input + Inputs(keys)
  {
    assert ([key] + keys)[1..] == keys;
  }
}
