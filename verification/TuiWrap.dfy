/** The Full TUI's word wrap: a scan by index over UTF-16 code units. */
module TuiWrap {

  import opened CodeUnits

  const SPACE: Unit := 0x20

  predicate IsWide(code: Unit) {
    || 0x1100 <= code <= 0x115F || 0x2E80 <= code <= 0x303E || 0x3040 <= code <= 0x33BF
    || 0x3400 <= code <= 0x4DBF || 0x4E00 <= code <= 0xA4CF || 0xAC00 <= code <= 0xD7AF
    || 0xF900 <= code <= 0xFAFF || 0xFE30 <= code <= 0xFE6F || 0xFF01 <= code <= 0xFF60
    || 0xFFE0 <= code <= 0xFFE6
  }

  function CharWidth(c: Unit): nat {
    if IsWide(c) then 2 else 1
  }

  function Width(text: Text): nat {
    if text == [] then 0 else Width(text[..|text| - 1]) + CharWidth(text[|text| - 1])
  }

  /** How far a line that starts at `i` can reach, given that it reaches `j` with `col` columns. */
  function Reach(text: Text, j: nat, col: nat, width: int): (r: nat)
    requires j <= |text|
    ensures j <= r <= |text|
    decreases |text| - j
  {
    if j == |text| || col + CharWidth(text[j]) > width then j
    else Reach(text, j + 1, col + CharWidth(text[j]), width)
  }

  /** The last space in `text[i..j]`, or -1. */
  function LastSpace(text: Text, i: nat, j: nat): (r: int)
    requires i <= j <= |text|
    ensures r == -1 || (i <= r < j && text[r] == SPACE)
    ensures forall k | i <= k < j && text[k] == SPACE :: k <= r
    decreases j
  {
    if i == j then -1 else if text[j - 1] == SPACE then j - 1 else LastSpace(text, i, j - 1)
  }

  /** The end of the line that starts at `i`, and where the next one starts. */
  datatype Break = Break(end: nat, next: nat)

  function LineBreak(text: Text, i: nat, width: int): (b: Break)
    requires i < |text|
    ensures i <= b.end <= b.next <= |text|
  {
    var j := Reach(text, i, 0, width);
    var space := LastSpace(text, i, j);
    if j == |text| then Break(|text|, |text|)
    else if space > i then Break(space, space + 1)
    else Break(j, j)
  }

  /** Every character fits on a line of its own. */
  predicate Fits(text: Text, width: int) {
    forall c | c in text :: CharWidth(c) <= width
  }

  /** The wrap always advances. */
  predicate Advances(text: Text, width: int) {
    forall i | 0 <= i < |text| :: LineBreak(text, i, width).next > i
  }

  /** The scan makes progress from every start exactly when no character is wider than the line. In
      particular it ends for every text when the width is at least 2. */
  lemma AdvancesIff(text: Text, width: int)
    ensures Advances(text, width) <==> Fits(text, width)
    ensures width >= 2 ==> Advances(text, width)
  {
    if Fits(text, width) {
      forall i | 0 <= i < |text| ensures LineBreak(text, i, width).next > i {
        assert text[i] in text;
        assert Reach(text, i, 0, width) > i;
      }
    }
    if Advances(text, width) {
      forall c | c in text ensures CharWidth(c) <= width {
        var i :| 0 <= i < |text| && text[i] == c;
        assert LineBreak(text, i, width).next > i;
      }
    }
  }

  // ------------------------------------------------- when the loop ends

  /** Where the loop is after `n` turns, when it starts at the beginning; at the end it stays. */
  function StartAfter(text: Text, width: int, n: nat): (i: nat)
    ensures i <= |text|
  {
    if n == 0 then 0
    else
      var i := StartAfter(text, width, n - 1);
      if i == |text| then i else LineBreak(text, i, width).next
  }

  ghost predicate Ends(text: Text, width: int) {
    exists n: nat :: StartAfter(text, width, n) == |text|
  }

  lemma {:induction false} StartsAdvance(text: Text, width: int, n: nat)
    requires Advances(text, width)
    ensures StartAfter(text, width, n) >= n || StartAfter(text, width, n) == |text|
  {
    if n > 0 {
      StartsAdvance(text, width, n - 1);
      var i := StartAfter(text, width, n - 1);
      assert i < |text| ==> LineBreak(text, i, width).next > i;
    }
  }

  lemma {:induction false} ReachStopsAt(text: Text, j: nat, col: nat, width: int, k: nat)
    requires j <= k < |text| && CharWidth(text[k]) > width
    ensures Reach(text, j, col, width) <= k
    decreases k - j
  {
    if j < k && col + CharWidth(text[j]) <= width {
      ReachStopsAt(text, j + 1, col + CharWidth(text[j]), width, k);
    }
  }

  /** The loop never gets past a character that is wider than the line. */
  lemma {:induction false} StuckBefore(text: Text, width: int, k: nat, n: nat)
    requires k < |text| && CharWidth(text[k]) > width
    ensures StartAfter(text, width, n) <= k
  {
    if n > 0 {
      StuckBefore(text, width, k, n - 1);
      ReachStopsAt(text, StartAfter(text, width, n - 1), 0, width, k);
    }
  }

  /** The loop ends exactly when no character is wider than the line; otherwise it goes on for ever. */
  lemma EndsIff(text: Text, width: int)
    ensures Ends(text, width) <==> Fits(text, width)
  {
    if Fits(text, width) {
      AdvancesIff(text, width);
      StartsAdvance(text, width, |text|);
      assert StartAfter(text, width, |text|) == |text|;
    } else {
      var c :| c in text && CharWidth(c) > width;
      var k :| 0 <= k < |text| && text[k] == c;
      forall n: nat ensures StartAfter(text, width, n) != |text| {
        StuckBefore(text, width, k, n);
      }
    }
  }

  /** The lines from position `i` on. */
  function Lines(text: Text, i: nat, width: int): seq<Text>
    requires i <= |text| && Advances(text, width)
    decreases |text| - i
  {
    if i == |text| then []
    else
      var b := LineBreak(text, i, width);
      assert b.next > i;
      [text[i..b.end]] + Lines(text, b.next, width)
  }

  /** The inner scan: how far the line reaches, and the last space on the way. */
  method ScanLine(text: Text, i: nat, width: int) returns (j: nat, lastSpace: int)
    requires i < |text|
    ensures j == Reach(text, i, 0, width) && lastSpace == LastSpace(text, i, j)
  {
    var col := 0;
    lastSpace, j := -1, i;
    while j < |text|
      invariant i <= j <= |text| && col >= 0
      invariant lastSpace == LastSpace(text, i, j)
      invariant Reach(text, j, col, width) == Reach(text, i, 0, width)
    {
      var cw := CharWidth(text[j]);
      if col + cw > width {
        break;
      }
      if text[j] == SPACE {
        lastSpace := j;
      }
      col := col + cw;
      j := j + 1;
    }
  }

  lemma LinesStep(out: seq<Text>, text: Text, i: nat, width: int)
    requires i < |text| && Advances(text, width)
    ensures var b := LineBreak(text, i, width);
            b.next > i && out + Lines(text, i, width) == (out + [text[i..b.end]]) + Lines(text, b.next, width)
  {
  }

  /** One line and the start of the next. */
  method NextLine(text: Text, i: nat, width: int) returns (line: Text, next: nat)
    requires i < |text|
    ensures line == text[i..LineBreak(text, i, width).end] && next == LineBreak(text, i, width).next
  {
    var j, lastSpace := ScanLine(text, i, width);
    if j >= |text| {
      return text[i..], |text|;
    }
    if lastSpace > i {
      return text[i..lastSpace], lastSpace + 1;
    }
    return text[i..j], j;
  }

  method WrapParagraph(text: Text, width: int) returns (out: seq<Text>)
    requires Fits(text, width)
    ensures Advances(text, width) && out == Lines(text, 0, width)
  {
    AdvancesIff(text, width);
    out := [];
    var i := 0;
    ghost var all := Lines(text, 0, width);
    while i < |text|
      invariant 0 <= i <= |text|
      invariant out + Lines(text, i, width) == all
      decreases |text| - i
    {
      LinesStep(out, text, i, width);
      var line, next := NextLine(text, i, width);
      out, i := out + [line], next;
    }
    assert out + [] == out;
  }

  // ------------------------------------------------- every line fits and is as long as it can be

  lemma WidthPush(text: Text, i: nat, j: nat)
    requires i <= j < |text|
    ensures Width(text[i..j + 1]) == Width(text[i..j]) + CharWidth(text[j])
  {
    assert text[i..j + 1][..j - i] == text[i..j];
  }

  /** The reach is exact: the text up to it fits and one more character does not. */
  lemma {:induction false} ReachIsExact(text: Text, i: nat, j: nat, width: int)
    requires i <= j <= |text| && Width(text[i..j]) <= width
    ensures var r := Reach(text, j, Width(text[i..j]), width);
            Width(text[i..r]) <= width && (r < |text| ==> Width(text[i..r + 1]) > width)
    decreases |text| - j
  {
    if j < |text| {
      WidthPush(text, i, j);
      if Width(text[i..j + 1]) <= width {
        ReachIsExact(text, i, j + 1, width);
      }
    }
  }

  lemma {:induction false} WidthMonotone(text: Text, i: nat, j: nat, k: nat)
    requires i <= j <= k <= |text|
    ensures Width(text[i..j]) <= Width(text[i..k])
    decreases k
  {
    if j < k {
      WidthPush(text, i, k - 1);
      WidthMonotone(text, i, j, k - 1);
    }
  }

  /** The line from `i` does not fit once it includes position `r`. */
  predicate OverflowsAt(text: Text, i: nat, r: nat, width: int) {
    i <= r < |text| && Width(text[i..r + 1]) > width
  }

  /** A line fits; it runs to the end of the text, or ends at the last space that fits (unless that is
      its first character), or is filled to the last column. */
  lemma LineIsGreedy(text: Text, i: nat, width: int)
    requires i < |text| && width >= 0
    ensures var b := LineBreak(text, i, width);
            && Width(text[i..b.end]) <= width
            && (b.next == b.end < |text| ==>
                  Width(text[i..b.end + 1]) > width && forall k | i < k < b.end :: text[k] != SPACE)
            && (b.next == b.end + 1 ==>
                  text[b.end] == SPACE
                  && exists r :: b.end < r && OverflowsAt(text, i, r, width)
                                 && forall k | b.end < k < r :: text[k] != SPACE)
            && (b.next == b.end || b.next == b.end + 1)
  {
    assert text[i..i] == [];
    ReachIsExact(text, i, i, width);
    var b := LineBreak(text, i, width);
    WidthMonotone(text, i, b.end, Reach(text, i, 0, width));
    assert b.next == b.end + 1 ==> OverflowsAt(text, i, Reach(text, i, 0, width), width);
  }

  /** Every line fits. */
  lemma {:induction false} LinesFit(text: Text, i: nat, width: int)
    requires i <= |text| && Advances(text, width)
    ensures forall line | line in Lines(text, i, width) :: Width(line) <= width
    decreases |text| - i
  {
    if i < |text| {
      AdvancesIff(text, width);
      assert text[i] in text;
      assert LineBreak(text, i, width).next > i;
      LineIsGreedy(text, i, width);
      LinesFit(text, LineBreak(text, i, width).next, width);
    }
  }

  // ------------------------------------------------- the lines rebuild the text

  /** Which breaks dropped a space. */
  function SoftBreaks(text: Text, i: nat, width: int): seq<bool>
    requires i <= |text| && Advances(text, width)
    decreases |text| - i
  {
    if i == |text| then []
    else
      var b := LineBreak(text, i, width);
      assert b.next > i;
      [b.next > b.end] + SoftBreaks(text, b.next, width)
  }

  function Rejoin(lines: seq<Text>, soft: seq<bool>): Text
    requires |lines| == |soft|
  {
    if lines == [] then []
    else lines[0] + (if soft[0] then [SPACE] else []) + Rejoin(lines[1..], soft[1..])
  }

  /** With one space put back at every soft break, the lines are the text. */
  lemma {:induction false} LinesRebuildText(text: Text, i: nat, width: int)
    requires i <= |text| && Advances(text, width)
    ensures |Lines(text, i, width)| == |SoftBreaks(text, i, width)|
    ensures Rejoin(Lines(text, i, width), SoftBreaks(text, i, width)) == text[i..]
    decreases |text| - i
  {
    if i < |text| {
      var b := LineBreak(text, i, width);
      assert b.next > i;
      LinesRebuildText(text, b.next, width);
      assert text[i..] == text[i..b.end] + text[b.end..b.next] + text[b.next..];
      assert b.next > b.end ==> text[b.end..b.next] == [SPACE];
      assert Lines(text, i, width)[1..] == Lines(text, b.next, width);
      assert SoftBreaks(text, i, width)[1..] == SoftBreaks(text, b.next, width);
    }
  }
}
