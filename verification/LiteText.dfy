/** Display-width-aware text of the Lite TUI. A text is a sequence of terminal units, each of which
    occupies 0, 1 or 2 columns. Wrapping and clipping are stated by widths, and by what shows: spaces and
    units without width may go, and everything else stays, in its order. */
module LiteText {
  import opened Sequences

  datatype Unit =
    | Newline
    | Blank(glyph: nat, columns: nat)
    | Glyph(glyph: nat, columns: nat)
    | Style(code: nat)

  type Text = seq<Unit>

  const SPACE := Blank(0x20, 1)
  const ELLIPSIS := Glyph(0x2026, 1)
  const RESET := Style(0)

  function UnitWidth(u: Unit): nat {
    match u
    case Newline => 0
    case Blank(_, columns) => columns
    case Glyph(_, columns) => columns
    case Style(_) => 0
  }

  predicate Measured(text: Text) {
    forall u | u in text :: UnitWidth(u) <= 2
  }

  function DisplayWidth(text: Text): nat {
    if text == [] then 0 else UnitWidth(text[0]) + DisplayWidth(text[1..])
  }

  lemma {:induction false} WidthAppend(a: Text, b: Text)
    ensures DisplayWidth(a + b) == DisplayWidth(a) + DisplayWidth(b)
  {
    if a == [] {
      assert a + b == b;
    } else {
      WidthAppend(a[1..], b);
      assert (a + b)[1..] == a[1..] + b;
    }
  }

  lemma WidthPush(a: Text, u: Unit)
    ensures DisplayWidth(a + [u]) == DisplayWidth(a) + UnitWidth(u)
  {
    WidthAppend(a, [u]);
    assert [u][1..] == [];
  }

  lemma {:induction false} WidthOfMember(text: Text, u: Unit)
    requires u in text
    ensures UnitWidth(u) <= DisplayWidth(text)
  {
    if u != text[0] {
      WidthOfMember(text[1..], u);
    }
  }

  // ------------------------------------------------- clipping

  predicate Overflows(column: nat, u: Unit, maxColumns: int) {
    UnitWidth(u) > 0 && column + UnitWidth(u) > maxColumns - 1
  }

  predicate Styled(text: Text) {
    exists u | u in text :: u.Style?
  }

  /** `clipLine`: the whole line if it fits; otherwise its longest prefix that leaves a column free,
      an ellipsis, and a reset if any styling survived. */
  method ClipLine(line: Text, maxColumns: int) returns (result: Text)
    ensures maxColumns <= 0 ==> result == []
    ensures maxColumns > 0 ==> DisplayWidth(result) <= maxColumns
    ensures maxColumns > 0 && DisplayWidth(line) <= maxColumns ==> result == line
    ensures maxColumns > 0 && DisplayWidth(line) > maxColumns ==>
      exists n :: 0 <= n < |line|
        && result == line[..n] + [ELLIPSIS] + (if Styled(line[..n]) then [RESET] else [])
        && Overflows(DisplayWidth(line[..n]), line[n], maxColumns)
        && DisplayWidth(line[..n]) <= maxColumns - 1
  {
    if maxColumns <= 0 {
      return [];
    }
    if DisplayWidth(line) <= maxColumns {
      return line;
    }
    var column := 0;
    result := [];
    var n := 0;
    while n < |line|
      invariant 0 <= n <= |line| && result == line[..n]
      invariant column == DisplayWidth(line[..n]) <= maxColumns - 1
    {
      if Overflows(column, line[n], maxColumns) {
        break;
      }
      WidthPush(line[..n], line[n]);
      assert line[..n + 1] == line[..n] + [line[n]];
      result := result + [line[n]];
      column := column + UnitWidth(line[n]);
      n := n + 1;
    }
    assert line[..|line|] == line;
    result := result + [ELLIPSIS];
    WidthPush(line[..n], ELLIPSIS);
    if Styled(result) {
      assert Styled(line[..n]);
      WidthPush(result, RESET);
      result := result + [RESET];
    } else {
      assert forall u | u in line[..n] :: u in result;
      assert result + [] == result;
    }
  }

  // ------------------------------------------------- ink

  /** A unit that must not get lost: it shows something. */
  predicate IsInk(u: Unit) {
    u.Glyph? && u.columns > 0
  }

  function Inky(): Unit -> bool {
    (u: Unit) => IsInk(u)
  }

  function Ink(text: Text): Text {
    Filter(text, Inky())
  }

  lemma InkAppend(a: Text, b: Text)
    ensures Ink(a + b) == Ink(a) + Ink(b)
  {
    FilterAppend(a, b, Inky());
  }

  lemma InkOf(u: Unit)
    ensures Ink([u]) == if IsInk(u) then [u] else []
  {
    assert [u][1..] == [];
  }

  lemma InkPush(a: Text, u: Unit)
    ensures Ink(a + [u]) == Ink(a) + (if IsInk(u) then [u] else [])
  {
    InkAppend(a, [u]);
    InkOf(u);
  }

  function AllInk(lines: seq<Text>): Text {
    Ink(Flatten(lines))
  }

  lemma AllInkAppend(a: seq<Text>, b: seq<Text>)
    ensures AllInk(a + b) == AllInk(a) + AllInk(b)
  {
    FlattenAppend(a, b);
    InkAppend(Flatten(a), Flatten(b));
  }

  lemma AllInkPush(lines: seq<Text>, line: Text)
    ensures AllInk(lines + [line]) == AllInk(lines) + Ink(line)
  {
    FlattenPush(lines, line);
    InkAppend(Flatten(lines), line);
  }

  /** Units joined one by one to the pieces of a text keep their ink. */
  lemma InkOfStart(u: Unit, rest: seq<Text>)
    requires rest != []
    ensures AllInk([[u] + rest[0]] + rest[1..]) == Ink([u]) + AllInk(rest)
  {
    var first := [u] + rest[0];
    assert ([first] + rest[1..])[1..] == rest[1..];
    ConcatAssoc([u], rest[0], Flatten(rest[1..]));
    InkAppend([u], Flatten(rest));
  }

  lemma InkOfBreak(rest: seq<Text>)
    ensures AllInk([[]] + rest) == AllInk(rest)
  {
    assert ([[]] + rest)[1..] == rest && [] + Flatten(rest) == Flatten(rest);
  }

  lemma InkOfNothing()
    ensures AllInk([[]]) == []
  {
    var none: seq<Text> := [];
    FlattenPush(none, []);
    assert none + [[]] == [[]];
  }

  lemma InkOfHead(text: Text)
    requires text != []
    ensures Ink(text) == Ink([text[0]]) + Ink(text[1..])
    ensures !IsInk(text[0]) ==> Ink(text) == Ink(text[1..])
  {
    assert text == [text[0]] + text[1..];
    InkAppend([text[0]], text[1..]);
    InkOf(text[0]);
    assert [] + Ink(text[1..]) == Ink(text[1..]);
  }

  /** A line without width has no ink. */
  lemma {:induction false} NoWidthNoInk(text: Text)
    requires DisplayWidth(text) == 0
    ensures Ink(text) == []
  {
    if text != [] {
      NoWidthNoInk(text[1..]);
    }
  }

  // ------------------------------------------------- wrapping a paragraph

  /** Splitting at the spaces. */
  function Words(text: Text): (words: seq<Text>)
    ensures |words| >= 1
    ensures forall w, u | w in words && u in w :: u in text && u != SPACE
  {
    if text == [] then [[]]
    else
      var rest := Words(text[1..]);
      if text[0] == SPACE then [[]] + rest else [[text[0]] + rest[0]] + rest[1..]
  }

  lemma {:induction false} WordsKeepInk(text: Text)
    ensures AllInk(Words(text)) == Ink(text)
  {
    if text == [] {
      InkOfNothing();
    } else {
      var rest := Words(text[1..]);
      WordsKeepInk(text[1..]);
      InkOfHead(text);
      if text[0] == SPACE {
        InkOfBreak(rest);
      } else {
        InkOfStart(text[0], rest);
      }
    }
  }

  /** Every line fits whatever its units are: the width is at least 2, or nothing is wide. */
  predicate Roomy(text: Text, width: nat) {
    width >= 1 && Measured(text) && (width >= 2 || forall u | u in text :: UnitWidth(u) <= 1)
  }

  predicate AllFit(lines: seq<Text>, width: nat) {
    forall line | line in lines :: DisplayWidth(line) <= width
  }

  /** The first word of a line: what stands before its first space. */
  function FirstWord(line: Text): Text {
    if line == [] || line[0] == SPACE then [] else [line[0]] + FirstWord(line[1..])
  }

  lemma {:induction false} FirstWordGrows(a: Text, b: Text)
    ensures DisplayWidth(FirstWord(a)) <= DisplayWidth(FirstWord(a + b))
    ensures SPACE in a ==> FirstWord(a + b) == FirstWord(a)
  {
    if a == [] {
      assert a + b == b;
    } else if a[0] != SPACE {
      FirstWordGrows(a[1..], b);
      assert (a + b)[1..] == a[1..] + b;
      assert ([a[0]] + FirstWord(a[1..]))[1..] == FirstWord(a[1..]);
      assert ([a[0]] + FirstWord(a[1..] + b))[1..] == FirstWord(a[1..] + b);
    }
  }

  lemma {:induction false} FirstWordOfWord(word: Text)
    requires SPACE !in word
    ensures FirstWord(word) == word
  {
    if word != [] {
      FirstWordOfWord(word[1..]);
    }
  }

  /** The break between two lines was needed: the first word of the second line, with a space before
      it, would not have fitted on the first line. A line that shows nothing is exempt. */
  predicate Needed(a: Text, b: Text, width: nat) {
    DisplayWidth(a) == 0 || DisplayWidth(a) + 1 + DisplayWidth(FirstWord(b)) > width
  }

  predicate Tight(lines: seq<Text>, width: nat) {
    forall i | 0 <= i < |lines| - 1 :: Needed(lines[i], lines[i + 1], width)
  }

  lemma TightPush(lines: seq<Text>, line: Text, width: nat)
    requires Tight(lines, width) && (lines != [] ==> Needed(lines[|lines| - 1], line, width))
    ensures Tight(lines + [line], width)
  {
  }

  function Pushed(lines: seq<Text>, line: Text): seq<Text> {
    if line == [] then lines else lines + [line]
  }

  /** The lines so far are tight, and the break before the current line was needed. */
  predicate Settled(out: seq<Text>, line: Text, width: nat) {
    Tight(out, width) && (out != [] ==> Needed(out[|out| - 1], line, width))
  }

  lemma SettledExtend(out: seq<Text>, line: Text, more: Text, width: nat)
    requires Settled(out, line, width)
    ensures Settled(out, line + more, width)
  {
    FirstWordGrows(line, more);
  }

  lemma {:induction false} FirstWordIsNarrower(line: Text)
    ensures DisplayWidth(FirstWord(line)) <= DisplayWidth(line)
  {
    if line != [] && line[0] != SPACE {
      FirstWordIsNarrower(line[1..]);
      assert ([line[0]] + FirstWord(line[1..]))[1..] == FirstWord(line[1..]);
    }
  }

  /** A current line that shows nothing may be replaced. */
  lemma SettledReplace(out: seq<Text>, line: Text, word: Text, width: nat)
    requires Settled(out, line, width) && DisplayWidth(line) == 0
    ensures Settled(out, word, width)
  {
    FirstWordIsNarrower(line);
  }

  /** What holds between two words. */
  ghost predicate Good(out: seq<Text>, line: Text, width: nat) {
    AllFit(out, width) && DisplayWidth(line) <= width && Settled(out, line, width)
  }

  lemma GoodFlush(out: seq<Text>, line: Text, next: Text, width: nat)
    requires Good(out, line, width) && line != [] && Needed(line, next, width) && DisplayWidth(next) <= width
    ensures Good(out + [line], next, width)
  {
    TightPush(out, line, width);
  }

  lemma {:induction false} WordRoomy(text: Text, width: nat, word: Text)
    requires Roomy(text, width) && word in Words(text)
    ensures Roomy(word, width)
  {
  }

  /** What holds inside a broken word: either a line was finished since it began, and the break before
      the current line was needed, or the current line is all of the word so far. */
  ghost predicate Breaking(out: seq<Text>, line: Text, seen: Text, first: seq<Text>, width: nat) {
    && AllFit(out, width) && DisplayWidth(line) <= width && Tight(out, width)
    && (out == [] || Needed(out[|out| - 1], line, width) || (out == first && line == seen))
  }

  lemma BreakingFlush(out: seq<Text>, line: Text, u: Unit, width: nat, first: seq<Text>, seen: Text)
    requires Roomy([u], width) && Breaking(out, line, seen, first, width)
    requires line != [] && SPACE !in line && u != SPACE && DisplayWidth(line) + UnitWidth(u) > width
    ensures Breaking(out + [line], [u], seen + [u], first, width)
  {
    assert u in [u];
    WidthPush([], u);
    assert [] + [u] == [u];
    FullLineIsNeeded(out, line, u, width);
    TightPush(out, line, width);
  }

  lemma BreakingExtend(out: seq<Text>, line: Text, u: Unit, width: nat, first: seq<Text>, seen: Text)
    requires Roomy([u], width) && Breaking(out, line, seen, first, width)
    requires line == [] || DisplayWidth(line) + UnitWidth(u) <= width
    ensures Breaking(out, line + [u], seen + [u], first, width)
  {
    assert u in [u];
    WidthPush(line, u);
    FirstWordGrows(line, [u]);
  }

  /** One unit of a broken word. */
  method BreakUnit(out: seq<Text>, line: Text, u: Unit, width: nat, ghost first: seq<Text>, ghost seen: Text)
    returns (out': seq<Text>, line': Text)
    requires width >= 1 && SPACE !in line && u != SPACE
    ensures line' != [] && SPACE !in line'
    ensures AllInk(out') + Ink(line') == AllInk(out) + (Ink(line) + Ink([u]))
    ensures Roomy([u], width) && Breaking(out, line, seen, first, width) ==>
      Breaking(out', line', seen + [u], first, width)
  {
    if DisplayWidth(line) + UnitWidth(u) > width && line != [] {
      if Roomy([u], width) && Breaking(out, line, seen, first, width) {
        BreakingFlush(out, line, u, width, first, seen);
      }
      AllInkPush(out, line);
      out', line' := out + [line], [u];
    } else {
      if Roomy([u], width) && Breaking(out, line, seen, first, width) {
        BreakingExtend(out, line, u, width, first, seen);
      }
      InkAppend(line, [u]);
      out', line' := out, line + [u];
    }
  }

  lemma BreakingStart(out: seq<Text>, line: Text, width: nat)
    requires Good(out, line, width)
    ensures Breaking(Pushed(out, line), [], [], Pushed(out, line), width)
  {
    if line != [] {
      TightPush(out, line, width);
    }
  }

  /** A broken word does not end on the line on which it began. */
  lemma BreakingEnd(out: seq<Text>, line: Text, word: Text, first: seq<Text>, width: nat)
    requires Breaking(out, line, word, first, width) && DisplayWidth(word) > width
    ensures Good(out, line, width)
  {
  }

  lemma RoomyUnit(word: Text, width: nat, k: nat)
    requires Roomy(word, width) && k < |word|
    ensures Roomy([word[k]], width)
  {
    assert word[k] in word;
  }

  /** The ink of the lines so far is `ink` and that of the first `k` units of the word. */
  predicate Broken(ink: Text, out: seq<Text>, line: Text, word: Text, k: nat) {
    k <= |word| && AllInk(out) + Ink(line) == ink + Ink(word[..k])
  }

  lemma BrokenNext(ink: Text, out: seq<Text>, line: Text, out': seq<Text>, line': Text, word: Text, k: nat)
    requires Broken(ink, out, line, word, k) && k < |word|
    requires AllInk(out') + Ink(line') == AllInk(out) + (Ink(line) + Ink([word[k]]))
    ensures Broken(ink, out', line', word, k + 1)
  {
    InkAppend(word[..k], [word[k]]);
    assert word[..k + 1] == word[..k] + [word[k]];
    ConcatAssoc(AllInk(out), Ink(line), Ink([word[k]]));
    ConcatAssoc(ink, Ink(word[..k]), Ink([word[k]]));
  }

  lemma BrokenStart(ink: Text, out: seq<Text>, word: Text)
    requires AllInk(out) == ink
    ensures Broken(ink, out, [], word, 0)
  {
    assert word[..0] == [] && ink + Ink([]) == ink;
  }

  lemma PushedInk(out: seq<Text>, line: Text)
    ensures AllInk(Pushed(out, line)) == AllInk(out) + Ink(line)
  {
    AllInkPush(out, line);
    assert AllInk(out) + [] == AllInk(out);
  }

  /** A word that is wider than the line is broken unit by unit. */
  method BreakWord(out: seq<Text>, line: Text, word: Text, width: nat) returns (out': seq<Text>, line': Text)
    requires width >= 1 && DisplayWidth(word) > width && SPACE !in word
    ensures AllInk(out') + Ink(line') == (AllInk(out) + Ink(line)) + Ink(word)
    ensures Roomy(word, width) && Good(out, line, width) ==> Good(out', line', width)
  {
    ghost var ink := AllInk(out) + Ink(line);
    out', line' := Pushed(out, line), [];
    ghost var first := out';
    ghost var ok := Roomy(word, width) && Good(out, line, width);
    if ok { BreakingStart(out, line, width); }
    PushedInk(out, line);
    BrokenStart(ink, out', word);
    BrokenSoFar(word, 0);
    for k := 0 to |word|
      invariant SPACE !in line' && Broken(ink, out', line', word, k)
      invariant ok ==> Breaking(out', line', word[..k], first, width)
    {
      out', line' := BreakNext(out', line', word, k, width, ok, first, ink);
    }
    BrokenSoFar(word, |word|);
    if ok { BreakingEnd(out', line', word, first, width); }
  }

  lemma BrokenSoFar(word: Text, k: nat)
    requires k <= |word|
    ensures k == 0 ==> word[..k] == []
    ensures k == |word| ==> word[..k] == word
    ensures k < |word| ==> word[..k + 1] == word[..k] + [word[k]]
  {}

  /** One turn of the loop. */
  method BreakNext(out: seq<Text>, line: Text, word: Text, k: nat, width: nat, ghost ok: bool, ghost first: seq<Text>,
                   ghost ink: Text) returns (out': seq<Text>, line': Text)
    requires width >= 1 && k < |word| && SPACE !in word && SPACE !in line && (ok ==> Roomy(word, width))
    requires Broken(ink, out, line, word, k) && (ok ==> Breaking(out, line, word[..k], first, width))
    ensures SPACE !in line' && Broken(ink, out', line', word, k + 1)
    ensures ok ==> Breaking(out', line', word[..k + 1], first, width)
  {
    if ok { RoomyUnit(word, width, k); }
    BrokenSoFar(word, k);
    out', line' := BreakUnit(out, line, word[k], width, first, word[..k]);
    BrokenNext(ink, out, line, out', line', word, k);
  }

  /** Before a line is broken for a unit it is full, so the break before it was needed too. */
  lemma FullLineIsNeeded(out: seq<Text>, line: Text, u: Unit, width: nat)
    requires line != [] && SPACE !in line && UnitWidth(u) <= 2 && DisplayWidth(line) + UnitWidth(u) > width
    ensures out != [] ==> Needed(out[|out| - 1], line, width)
    ensures Needed(line, [u], width) || u == SPACE
  {
    FirstWordOfWord(line);
    if u != SPACE {
      FirstWordOfWord([u]);
      assert DisplayWidth([u]) == UnitWidth(u) by { WidthPush([], u); assert [] + [u] == [u]; }
    }
  }

  /** One word goes on the current line if it fits there, and else on the next. */
  method AddWord(out: seq<Text>, line: Text, word: Text, width: nat) returns (out': seq<Text>, line': Text)
    requires width >= 1 && SPACE !in word
    ensures AllInk(out') + Ink(line') == AllInk(out) + Ink(line) + Ink(word)
    ensures Roomy(word, width) && Good(out, line, width) ==> Good(out', line', width)
  {
    var wordWidth, lineWidth := DisplayWidth(word), DisplayWidth(line);
    if wordWidth > width {
      out', line' := BreakWord(out, line, word, width);
      return;
    }
    var cost := if lineWidth == 0 then wordWidth else wordWidth + 1;
    ghost var ok := Roomy(word, width) && Good(out, line, width);
    if lineWidth + cost > width {
      PushedInk(out, line);
      if ok { NextLineIsGood(out, line, word, width); }
      out', line' := Pushed(out, line), word;
    } else if lineWidth == 0 {
      NoWidthNoInk(line);
      assert AllInk(out) + [] == AllInk(out);
      if ok { SettledReplace(out, line, word, width); }
      out', line' := out, word;
    } else {
      ExtendedInk(line, word);
      ConcatAssoc(AllInk(out), Ink(line), Ink(word));
      if ok { ExtendedLineIsGood(out, line, word, width); }
      out', line' := out, line + [SPACE] + word;
    }
  }

  lemma ExtendedInk(line: Text, word: Text)
    ensures Ink(line + [SPACE] + word) == Ink(line) + Ink(word)
  {
    InkPush(line, SPACE);
    InkAppend(line + [SPACE], word);
    assert Ink(line) + [] == Ink(line);
  }

  lemma NextLineIsGood(out: seq<Text>, line: Text, word: Text, width: nat)
    requires Roomy(word, width) && Good(out, line, width) && SPACE !in word && DisplayWidth(word) <= width
    requires DisplayWidth(line)
      + (if DisplayWidth(line) == 0 then DisplayWidth(word) else DisplayWidth(word) + 1) > width
    ensures Good(Pushed(out, line), word, width)
  {
    FirstWordOfWord(word);
    GoodFlush(out, line, word, width);
  }

  lemma ExtendedWidth(line: Text, word: Text)
    ensures DisplayWidth(line + [SPACE] + word) == DisplayWidth(line) + 1 + DisplayWidth(word)
  {
    WidthPush(line, SPACE);
    WidthAppend(line + [SPACE], word);
  }

  lemma ExtendedSettled(out: seq<Text>, line: Text, word: Text, width: nat)
    requires Settled(out, line, width)
    ensures Settled(out, line + [SPACE] + word, width)
  {
    SettledExtend(out, line, [SPACE] + word, width);
    ConcatAssoc(line, [SPACE], word);
  }

  lemma ExtendedLineIsGood(out: seq<Text>, line: Text, word: Text, width: nat)
    requires Good(out, line, width) && DisplayWidth(line) + DisplayWidth(word) + 1 <= width
    ensures Good(out, line + [SPACE] + word, width)
  {
    ExtendedWidth(line, word);
    ExtendedSettled(out, line, word, width);
  }

  /** Greedy word wrap. Nothing that shows is lost or moved; every line fits if the width is at least
      2 or nothing is wide; and no line is broken early. */
  method WrapParagraph(text: Text, width: nat) returns (out: seq<Text>)
    requires width >= 1
    ensures AllInk(out) == Ink(text)
    ensures Roomy(text, width) ==> AllFit(out, width) && Tight(out, width)
  {
    var words := Words(text);
    var line: Text := [];
    out := [];
    ghost var ok := Roomy(text, width);
    for i := 0 to |words|
      invariant Placed(out, line, words, i)
      invariant ok ==> Good(out, line, width)
    {
      assert words[i] in words;
      if ok { WordRoomy(text, width, words[i]); }
      ghost var before, open := out, line;
      out, line := AddWord(out, line, words[i], width);
      PlacedNext(before, open, out, line, words, i);
    }
    assert words[..|words|] == words;
    WordsKeepInk(text);
    PushedInk(out, line);
    if line != [] {
      if ok { TightPush(out, line, width); }
      out := out + [line];
    }
  }

  /** The ink of the lines so far is that of the first `i` words. */
  predicate Placed(out: seq<Text>, line: Text, words: seq<Text>, i: nat) {
    i <= |words| && AllInk(out) + Ink(line) == AllInk(words[..i])
  }

  lemma PlacedNext(out: seq<Text>, line: Text, out': seq<Text>, line': Text, words: seq<Text>, i: nat)
    requires Placed(out, line, words, i) && i < |words|
    requires AllInk(out') + Ink(line') == AllInk(out) + Ink(line) + Ink(words[i])
    ensures Placed(out', line', words, i + 1)
  {
    AllInkPush(words[..i], words[i]);
    assert words[..i + 1] == words[..i] + [words[i]];
  }

  // ------------------------------------------------- wrapping a text

  /** `split("\n")`. */
  function Paragraphs(text: Text): (r: seq<Text>)
    ensures |r| >= 1
  {
    if text == [] then [[]]
    else
      var rest := Paragraphs(text[1..]);
      if text[0].Newline? then [[]] + rest else [[text[0]] + rest[0]] + rest[1..]
  }

  /** Every run of blanks becomes one space. */
  function Collapse(text: Text): Text
    decreases |text|
  {
    if text == [] then []
    else if text[0].Blank? then [SPACE] + Collapse(DropBlanks(text[1..]))
    else [text[0]] + Collapse(text[1..])
  }

  function DropBlanks(text: Text): (r: Text)
    ensures |r| <= |text|
  {
    if text != [] && text[0].Blank? then DropBlanks(text[1..]) else text
  }

  function DropTrailing(text: Text): Text {
    if text != [] && text[|text| - 1].Blank? then DropTrailing(text[..|text| - 1]) else text
  }

  /** A paragraph with its blanks collapsed and its ends trimmed. */
  function Clean(paragraph: Text): Text {
    DropTrailing(DropBlanks(Collapse(paragraph)))
  }

  lemma {:induction false} ParagraphsKeepInk(text: Text)
    ensures AllInk(Paragraphs(text)) == Ink(text)
  {
    if text == [] {
      InkOfNothing();
    } else {
      var rest := Paragraphs(text[1..]);
      ParagraphsKeepInk(text[1..]);
      InkOfHead(text);
      if text[0].Newline? {
        InkOfBreak(rest);
      } else {
        InkOfStart(text[0], rest);
      }
    }
  }

  lemma {:induction false} ParagraphUnits(text: Text)
    ensures forall p, u | p in Paragraphs(text) && u in p :: u in text
  {
    if text != [] {
      var rest := Paragraphs(text[1..]);
      ParagraphUnits(text[1..]);
      assert rest[0] in rest;
      assert forall u | u in text[1..] :: u in text;
    }
  }

  lemma {:induction false} DropBlanksKeepsInk(text: Text)
    ensures Ink(DropBlanks(text)) == Ink(text)
    ensures forall u | u in DropBlanks(text) :: u in text
  {
    if text != [] && text[0].Blank? {
      DropBlanksKeepsInk(text[1..]);
    }
  }

  lemma {:induction false} DropTrailingKeepsInk(text: Text)
    ensures Ink(DropTrailing(text)) == Ink(text)
    ensures forall u | u in DropTrailing(text) :: u in text
  {
    if text != [] && text[|text| - 1].Blank? {
      var init := text[..|text| - 1];
      DropTrailingKeepsInk(init);
      InkPush(init, text[|text| - 1]);
      assert text == init + [text[|text| - 1]] && Ink(init) + [] == Ink(init);
    }
  }

  lemma {:induction false} CollapseKeepsInk(text: Text)
    ensures Ink(Collapse(text)) == Ink(text)
    ensures forall u | u in Collapse(text) :: u == SPACE || u in text
    decreases |text|
  {
    if text != [] {
      if text[0].Blank? {
        DropBlanksKeepsInk(text[1..]);
        CollapseKeepsInk(DropBlanks(text[1..]));
        assert Collapse(text)[1..] == Collapse(DropBlanks(text[1..]));
      } else {
        CollapseKeepsInk(text[1..]);
        assert Collapse(text)[1..] == Collapse(text[1..]);
      }
    }
  }

  lemma CleanKeepsInk(paragraph: Text)
    ensures Ink(Clean(paragraph)) == Ink(paragraph)
    ensures forall u | u in Clean(paragraph) :: u == SPACE || u in paragraph
  {
    CollapseKeepsInk(paragraph);
    DropBlanksKeepsInk(Collapse(paragraph));
    DropTrailingKeepsInk(DropBlanks(Collapse(paragraph)));
  }

  /** Cleaning leaves single spaces only, and none at the ends. */
  lemma CleanIsClean(paragraph: Text)
    ensures var c := Clean(paragraph);
            && (c != [] ==> !c[0].Blank? && !c[|c| - 1].Blank?)
            && forall i | 0 <= i < |c| - 1 && c[i].Blank? :: !c[i + 1].Blank?
  {
    CollapseAlternates(paragraph);
    var d := DropBlanks(Collapse(paragraph));
    DropBlanksIsSuffix(Collapse(paragraph));
    DropTrailingIsPrefix(d);
  }

  predicate Alternates(text: Text) {
    forall i | 0 <= i < |text| - 1 && text[i].Blank? :: !text[i + 1].Blank?
  }

  lemma {:induction false} CollapseAlternates(text: Text)
    ensures Alternates(Collapse(text))
    ensures Collapse(text) != [] && Collapse(text)[0].Blank? ==> text[0].Blank?
    decreases |text|
  {
    if text != [] {
      var rest := if text[0].Blank? then DropBlanks(text[1..]) else text[1..];
      DropBlanksIsSuffix(text[1..]);
      CollapseAlternates(rest);
      assert Collapse(text)[1..] == Collapse(rest);
      forall i | 0 <= i < |Collapse(text)| - 1 && Collapse(text)[i].Blank? ensures !Collapse(text)[i + 1].Blank? {
        assert Collapse(text)[i + 1] == Collapse(rest)[i];
        assert i > 0 ==> Collapse(text)[i] == Collapse(rest)[i - 1];
      }
    }
  }

  lemma {:induction false} DropBlanksIsSuffix(text: Text)
    ensures var d := DropBlanks(text); d == text[|text| - |d|..] && (d != [] ==> !d[0].Blank?)
  {
    if text != [] && text[0].Blank? {
      DropBlanksIsSuffix(text[1..]);
    }
  }

  lemma {:induction false} DropTrailingIsPrefix(text: Text)
    ensures var d := DropTrailing(text);
            |d| <= |text| && d == text[..|d|] && (d != [] ==> !d[|d| - 1].Blank?)
  {
    if text != [] && text[|text| - 1].Blank? {
      DropTrailingIsPrefix(text[..|text| - 1]);
    }
  }

  /** What one paragraph becomes. */
  ghost predicate IsWrapped(part: seq<Text>, paragraph: Text, target: nat) {
    var cleaned := Clean(paragraph);
    && (cleaned == [] ==> part == [[]])
    && (cleaned != [] && DisplayWidth(cleaned) <= target ==> part == [cleaned])
    && (Roomy(cleaned, target) ==> AllFit(part, target) && Tight(part, target))
    && AllInk(part) == Ink(paragraph)
  }

  predicate IsBlankText(text: Text) {
    forall u | u in text :: u.Blank? || u.Newline?
  }

  predicate HasWideInk(text: Text) {
    exists u | u in text :: IsInk(u) && u.columns > 1
  }

  function Target(width: int): nat {
    if width < 1 then 1 else width
  }

  method WrapOne(paragraph: Text, target: nat) returns (part: seq<Text>)
    requires target >= 1
    ensures IsWrapped(part, paragraph, target)
  {
    var cleaned := Clean(paragraph);
    CleanKeepsInk(paragraph);
    var none: seq<Text> := [];
    FlattenPush(none, cleaned);
    assert none + [cleaned] == [cleaned] && [] + cleaned == cleaned;
    if |cleaned| == 0 {
      return [[]];
    }
    if DisplayWidth(cleaned) <= target {
      return [cleaned];
    }
    part := WrapParagraph(cleaned, target);
  }

  lemma CleanRoomy(paragraph: Text, target: nat)
    requires target >= 1 && Measured(paragraph) && (target >= 2 || !HasWideInk(paragraph))
    ensures Roomy(Clean(paragraph), target)
  {
    CleanKeepsInk(paragraph);
    CleanIsClean(paragraph);
    OnlySpacesAreBlank(paragraph);
    forall u | u in Clean(paragraph) ensures UnitWidth(u) <= 2 && (target >= 2 || UnitWidth(u) <= 1) {
      assert u == SPACE || u in paragraph;
      if u.Glyph? && u.columns > 1 {
        assert IsInk(u) && u in paragraph;
      }
    }
  }

  lemma {:induction false} OnlySpacesInCollapse(text: Text)
    ensures forall u | u in Collapse(text) && u.Blank? :: u == SPACE
    decreases |text|
  {
    if text != [] {
      var rest := if text[0].Blank? then DropBlanks(text[1..]) else text[1..];
      OnlySpacesInCollapse(rest);
      assert Collapse(text)[1..] == Collapse(rest);
      assert forall u :: u in Collapse(text) ==> u == Collapse(text)[0] || u in Collapse(rest);
    }
  }

  lemma OnlySpacesAreBlank(paragraph: Text)
    ensures forall u | u in Clean(paragraph) && u.Blank? :: u == SPACE
  {
    OnlySpacesInCollapse(paragraph);
    DropBlanksKeepsInk(Collapse(paragraph));
    DropTrailingKeepsInk(DropBlanks(Collapse(paragraph)));
  }

  /** A line that holds something wide is wide. */
  lemma WideInkIsKept(lines: seq<Text>, text: Text)
    requires AllInk(lines) == Ink(text) && HasWideInk(text)
    ensures !AllFit(lines, 1)
  {
    var u :| u in text && IsInk(u) && u.columns > 1;
    assert u in Ink(text);
    assert u in Flatten(lines);
    var line := LineOf(lines, u);
    WidthOfMember(line, u);
  }

  lemma {:induction false} LineOf(lines: seq<Text>, u: Unit) returns (line: Text)
    requires u in Flatten(lines)
    ensures line in lines && u in line
  {
    if u in lines[0] {
      line := lines[0];
    } else {
      line := LineOf(lines[1..], u);
    }
  }

  /** The paragraphs before `i` are wrapped. */
  ghost predicate WrappedTo(result: seq<Text>, parts: seq<seq<Text>>, paragraphs: seq<Text>, i: nat, target: nat)
    requires i <= |paragraphs|
  {
    && |parts| == i && result == Flatten(parts)
    && (forall k | 0 <= k < i :: IsWrapped(parts[k], paragraphs[k], target))
    && AllInk(result) == AllInk(paragraphs[..i])
  }

  lemma WrapStep(result: seq<Text>, parts: seq<seq<Text>>, paragraphs: seq<Text>, i: nat, target: nat, part: seq<Text>)
    requires i < |paragraphs| && WrappedTo(result, parts, paragraphs, i, target)
    requires IsWrapped(part, paragraphs[i], target)
    ensures WrappedTo(result + part, parts + [part], paragraphs, i + 1, target)
  {
    AllInkAppend(result, part);
    AllInkPush(paragraphs[..i], paragraphs[i]);
    assert paragraphs[..i + 1] == paragraphs[..i] + [paragraphs[i]];
    FlattenPush(parts, part);
  }

  /** `wrapText`: paragraph by paragraph, nothing that shows is lost or moved. */
  method WrapText(text: Text, width: int) returns (result: seq<Text>, ghost parts: seq<seq<Text>>)
    requires Measured(text)
    ensures IsBlankText(text) ==> result == []
    ensures !IsBlankText(text) ==>
      WrappedTo(result, parts, Paragraphs(text), |Paragraphs(text)|, Target(width))
    ensures AllInk(result) == Ink(text)
    ensures AllFit(result, Target(width)) <==> Target(width) >= 2 || !HasWideInk(text)
  {
    parts := [];
    if IsBlankText(text) {
      FilterNone(text, Inky());
      return [], parts;
    }
    var target := Target(width);
    var paragraphs := Paragraphs(text);
    result := [];
    for i := 0 to |paragraphs|
      invariant WrappedTo(result, parts, paragraphs, i, target)
      invariant target >= 2 || !HasWideInk(text) ==> AllFit(result, target)
    {
      var part := WrapOne(paragraphs[i], target);
      if target >= 2 || !HasWideInk(text) {
        ParagraphRoomy(text, paragraphs[i], target);
      }
      WrapStep(result, parts, paragraphs, i, target, part);
      result, parts := result + part, parts + [part];
    }
    assert paragraphs[..|paragraphs|] == paragraphs;
    ParagraphsKeepInk(text);
    if target < 2 && HasWideInk(text) {
      WideInkIsKept(result, text);
    }
  }

  lemma ParagraphRoomy(text: Text, paragraph: Text, target: nat)
    requires target >= 1 && Measured(text) && (target >= 2 || !HasWideInk(text))
    requires paragraph in Paragraphs(text)
    ensures Roomy(Clean(paragraph), target)
  {
    ParagraphUnits(text);
    CleanRoomy(paragraph, target);
  }
}
