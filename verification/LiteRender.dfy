/** The heights of the Lite frame. */
module LiteRender {
  // It is stated which row of which pane is on the screen at which scroll offset. A row is known by its pane
  // and its index, so a pane is described by how many rows it has.

  import opened Numbers
  import opened Sequences

  datatype Region = LeftList | TurnList | DetailRows | ConversationLines | OverlayLines

  datatype Line = Title(region: Region) | Header(index: nat) | Above(count: nat) | Row(region: Region, index: nat)
                | Below(count: nat) | Empty | Blank

  /** A line of the body: across the whole width, or one cell in each column. */
  datatype Cell = One(line: Line) | Two(left: Line, right: Line)

  datatype Limits = Limits(overlay: nat, detail: nat, conversation: nat)

  datatype Focus = ProjectsPane | TurnsPane | DetailPane | ConversationPane

  /** What is to be drawn: the number of rows of each pane, the selections and the three scroll offsets. */
  datatype View = View(
    overlay: bool, focus: Focus,
    overlayLines: nat, leftRows: nat, leftSelected: nat, turnRows: nat, turnSelected: nat,
    detailRows: nat, conversationLines: nat,
    overlayOffset: nat, detailOffset: nat, conversationOffset: nat)

  const CHROME_LINES := 6
  const MIN_CONTENT_HEIGHT := 8
  const MIN_WIDTH := 40
  const MIN_LEFT_COLUMN := 24
  const MIN_RIGHT_COLUMN := 30

  /** The bounds that a frame reports, written while it is drawn. */
  class ScrollLimits {
    var overlay: nat
    var detail: nat
    var conversation: nat

    constructor ()
      ensures overlay == detail == conversation == 0
    {
      overlay, detail, conversation := 0, 0, 0;
    }

    function Value(): Limits
      reads this
    {
      Limits(overlay, detail, conversation)
    }
  }

  function Rows(region: Region, from: nat, to: nat): (rows: seq<Line>)
    requires from <= to
    ensures |rows| == to - from && forall k | 0 <= k < to - from :: rows[k] == Row(region, from + k)
  {
    seq(to - from, k requires 0 <= k < to - from => Row(region, from + k))
  }

  function Headers(count: nat): (rows: seq<Line>)
    ensures |rows| == count && forall k | 0 <= k < count :: rows[k] == Header(k)
  {
    seq(count, k requires 0 <= k < count => Header(k))
  }

  function Blanks(count: nat): (rows: seq<Line>)
    ensures |rows| == count && forall k | 0 <= k < count :: rows[k] == Blank
  {
    seq(count, k requires 0 <= k < count => Blank)
  }

  function AboveHint(count: nat): seq<Line> {
    if count > 0 then [Above(count)] else []
  }

  function BelowHint(count: nat): seq<Line> {
    if count > 0 then [Below(count)] else []
  }

  /** Rows `from` to `to` of `count` between the two hints; `to` may come before `from`. */
  function Window(region: Region, count: nat, from: nat, to: int): seq<Line>
    requires to <= count
  {
    AboveHint(from) + Rows(region, from, Max(from, to)) + BelowHint(count - to)
  }

  /** Cut or filled up to a height. */
  function Fill(lines: seq<Line>, height: nat): (filled: seq<Line>)
    ensures |filled| == height
  {
    if |lines| >= height then lines[..height] else lines + Blanks(height - |lines|)
  }

  // ------------------------------------------------- the rows that lines account for

  /** The rows that lines show or count in a hint. */
  function Tally(lines: seq<Line>): nat {
    if lines == [] then 0
    else
      (match lines[0]
       case Above(n) => n
       case Below(n) => n
       case Row(_, _) => 1
       case _ => 0)
      + Tally(lines[1..])
  }

  lemma {:induction false} TallyConcat(a: seq<Line>, b: seq<Line>)
    ensures Tally(a + b) == Tally(a) + Tally(b)
  {
    if a == [] {
      assert a + b == b;
    } else {
      assert (a + b)[1..] == a[1..] + b;
      TallyConcat(a[1..], b);
    }
  }

  lemma {:induction false} TallyRows(region: Region, from: nat, count: nat)
    ensures Tally(Rows(region, from, from + count)) == count
    decreases count
  {
    if count > 0 {
      assert Rows(region, from, from + count)[1..] == Rows(region, from + 1, from + 1 + (count - 1));
      TallyRows(region, from + 1, count - 1);
    }
  }

  lemma {:induction false} TallyNone(lines: seq<Line>)
    requires forall k | 0 <= k < |lines| :: lines[k].Title? || lines[k].Header? || lines[k].Empty? || lines[k].Blank?
    ensures Tally(lines) == 0
  {
    if lines != [] {
      TallyNone(lines[1..]);
    }
  }

  /** A window and its hints account for every row. */
  lemma TallyWindow(region: Region, count: nat, from: nat, to: nat)
    requires from <= to <= count
    ensures Tally(Window(region, count, from, to)) == count
  {
    TallyConcat(AboveHint(from) + Rows(region, from, to), BelowHint(count - to));
    TallyConcat(AboveHint(from), Rows(region, from, to));
    TallyRows(region, from, to - from);
  }

  lemma TallyFilled(lines: seq<Line>, height: nat)
    requires |lines| <= height
    ensures Tally(Fill(lines, height)) == Tally(lines)
  {
    if |lines| == height {
      assert lines[..height] == lines;
    } else {
      TallyConcat(lines, Blanks(height - |lines|));
      TallyNone(Blanks(height - |lines|));
    }
  }

  // ------------------------------------------------- the scrollable pane

  function PaneViewport(maxLines: nat): nat {
    Max(maxLines - 1, 1)
  }

  function PaneLimit(count: nat, maxLines: nat): nat {
    if count <= PaneViewport(maxLines) then 0 else count - PaneViewport(maxLines) + 1
  }

  /** The first row shown, and the one after the last. */
  function PaneRange(count: nat, maxLines: nat, offset: int): (range: (nat, int))
    ensures range.0 <= count && range.1 <= count
    ensures maxLines >= 3 || count <= PaneViewport(maxLines) ==> range.0 <= range.1
  {
    var viewport := PaneViewport(maxLines);
    if count <= viewport then (0, count)
    else
      var start := Min(Max(0, offset), PaneLimit(count, maxLines));
      var available := viewport - (if start > 0 then 1 else 0);
      var slots := available - (if count - start > available then 1 else 0);
      (start, Min(start + slots, count))
  }

  function Pane(region: Region, count: nat, maxLines: nat, offset: int): seq<Line> {
    var range := PaneRange(count, maxLines, offset);
    Fill([Title(region)] + Window(region, count, range.0, range.1), maxLines)
  }

  /** `renderScrollablePane`. */
  method RenderScrollablePane(region: Region, count: nat, maxLines: nat, scrollOffset: int, limits: ScrollLimits)
    returns (lines: seq<Line>)
    modifies limits`detail
    ensures lines == Pane(region, count, maxLines, scrollOffset)
    ensures limits.detail == if PaneLimit(count, maxLines) > 0 then PaneLimit(count, maxLines) else old(limits.detail)
  {
    lines := [Title(region)];
    var viewport := Max(maxLines - 1, 1);
    if count <= viewport {
      lines := lines + Rows(region, 0, count);
      assert Window(region, count, 0, count) == Rows(region, 0, count);
      lines := PadAndCut(lines, maxLines);
      return;
    }
    var maxOffset := count - viewport + 1;
    limits.detail := maxOffset;
    var offset := Min(Max(0, scrollOffset), maxOffset);
    var hasAbove := offset > 0;
    var available := viewport - (if hasAbove then 1 else 0);
    var slots := available - (if count - offset > available then 1 else 0);
    var end := Min(offset + slots, count);
    lines := PushWindow(lines, region, count, offset, end);
    lines := PadAndCut(lines, maxLines);
  }

  /** The loop that pushes the rows of a window. */
  method PushRows(before: seq<Line>, region: Region, from: nat, to: int) returns (lines: seq<Line>)
    ensures lines == before + Rows(region, from, Max(from, to))
  {
    lines := before;
    var index := from;
    while index < to
      invariant from <= index <= Max(from, to)
      invariant lines == before + Rows(region, from, index)
    {
      lines := lines + [Row(region, index)];
      assert Rows(region, from, index + 1) == Rows(region, from, index) + [Row(region, index)];
      index := index + 1;
    }
  }

  /** The rows of a window between its hints. */
  method PushWindow(before: seq<Line>, region: Region, count: nat, from: nat, to: int) returns (lines: seq<Line>)
    requires to <= count
    ensures lines == before + Window(region, count, from, to)
  {
    lines := before;
    assert before + [] == before;
    if from > 0 {
      lines := lines + [Above(from)];
    }
    lines := PushRows(lines, region, from, to);
    var below := count - to;
    ghost var shown := lines;
    assert shown + [] == shown;
    if below > 0 {
      lines := lines + [Below(below)];
    }
    ConcatAssoc(before, AboveHint(from), Rows(region, from, Max(from, to)));
    ConcatAssoc(before, AboveHint(from) + Rows(region, from, Max(from, to)), BelowHint(below));
  }

  /** The loop that pushes blank lines, and the slice after it. */
  method PadAndCut(before: seq<Line>, height: nat) returns (lines: seq<Line>)
    ensures lines == Fill(before, height)
  {
    lines := before;
    while |lines| < height
      invariant |lines| <= Max(height, |before|) && |before| <= |lines|
      invariant lines == before + Blanks(|lines| - |before|)
      decreases height - |lines|
    {
      lines := lines + [Blank];
    }
    lines := lines[..height];
  }

  /** A pane is always exactly as tall as asked. What it shows and what its hints count make up all rows
      in a pane of three lines; in one of two lines they do unless it is scrolled half-way. */
  lemma PaneAccountsForRows(region: Region, count: nat, maxLines: nat, offset: int)
    ensures |Pane(region, count, maxLines, offset)| == maxLines
    ensures Tally(Pane(region, count, maxLines, offset)) == count
       <==> count == 0 || maxLines >= 3 || (maxLines == 2 && (count == 1 || offset <= 0 || offset >= count))
  {
    var range := PaneRange(count, maxLines, offset);
    var lines := [Title(region)] + Window(region, count, range.0, range.1);
    if maxLines < 2 {
      TallyNone(Pane(region, count, maxLines, offset));
    } else if maxLines == 2 && count > 1 && 0 < offset {
      assert Pane(region, count, maxLines, offset) == [Title(region), Above(range.0)];
      TallyConcat([Title(region)], [Above(range.0)]);
    } else {
      TallyWindow(region, count, range.0, range.1);
      TallyConcat([Title(region)], Window(region, count, range.0, range.1));
      TallyFilled(lines, maxLines);
    }
  }

  /** Drawing at an offset past the bound draws what is there at the bound. */
  lemma PaneClamps(region: Region, count: nat, maxLines: nat, offset: nat)
    ensures Pane(region, count, maxLines, offset)
         == Pane(region, count, maxLines, Min(offset, PaneLimit(count, maxLines)))
  {}

  /** The offset at which a row is on the screen. */
  function PaneOffsetFor(count: nat, maxLines: nat, i: nat): nat {
    if count <= PaneViewport(maxLines) || i < PaneViewport(maxLines) - 1 then 0
    else Min(i, PaneLimit(count, maxLines))
  }

  predicate ShownAt(region: Region, count: nat, maxLines: nat, offset: nat, i: nat) {
    Row(region, i) in Pane(region, count, maxLines, offset)
  }

  ghost predicate Reachable(region: Region, count: nat, maxLines: nat, i: nat) {
    exists offset: nat :: offset <= PaneLimit(count, maxLines) && ShownAt(region, count, maxLines, offset, i)
  }

  /** Every row is on the screen at some offset within the bound. */
  ghost predicate PaneReaches(region: Region, count: nat, maxLines: nat) {
    forall i: nat | i < count :: Reachable(region, count, maxLines, i)
  }

  lemma PaneShows(region: Region, count: nat, maxLines: nat, offset: int, i: nat)
    requires maxLines >= 2
    ensures var range := PaneRange(count, maxLines, offset);
            Row(region, i) in Pane(region, count, maxLines, offset) <==> range.0 <= i < range.1
  {
    var range := PaneRange(count, maxLines, offset);
    var lines := [Title(region)] + Window(region, count, range.0, range.1);
    if range.0 > range.1 {
      assert Pane(region, count, maxLines, offset) == [Title(region), Above(range.0)];
    } else {
      WindowShows(region, count, range.0, range.1, i);
      assert Row(region, i) in lines <==> Row(region, i) in Window(region, count, range.0, range.1);
      FillShows(lines, maxLines, region, i);
    }
  }

  lemma WindowShows(region: Region, count: nat, from: nat, to: nat, i: nat)
    requires from <= to <= count
    ensures Row(region, i) in Window(region, count, from, to) <==> from <= i < to
  {
    var rows := Rows(region, from, to);
    if from <= i < to {
      assert rows[i - from] == Row(region, i);
    }
  }

  lemma FillShows(lines: seq<Line>, height: nat, region: Region, i: nat)
    requires |lines| <= height
    ensures Row(region, i) in Fill(lines, height) <==> Row(region, i) in lines
  {
    if |lines| == height {
      assert lines[..height] == lines;
    }
  }

  /** Scrolling reaches every row exactly when the rows fit or the pane is four lines tall. */
  lemma PaneReachesIff(region: Region, count: nat, maxLines: nat)
    ensures PaneReaches(region, count, maxLines) <==> count < maxLines || count == 0 || maxLines >= 4
  {
    if count < maxLines || maxLines >= 4 {
      forall i: nat | i < count ensures Reachable(region, count, maxLines, i) {
        PaneShows(region, count, maxLines, PaneOffsetFor(count, maxLines, i), i);
        assert ShownAt(region, count, maxLines, PaneOffsetFor(count, maxLines, i), i);
      }
    } else if count > 0 {
      var i: nat := if maxLines == 3 then 1 else 0;
      forall offset: nat ensures !ShownAt(region, count, maxLines, offset, i) {
        if maxLines >= 2 {
          PaneShows(region, count, maxLines, offset, i);
        }
      }
      assert !Reachable(region, count, maxLines, i);
    }
  }

  /** At the bound the last row is on the screen, in a pane of three lines or more. */
  lemma LastRowAtTheLimit(region: Region, count: nat, maxLines: nat)
    requires count > 0 && maxLines >= 3
    ensures Row(region, count - 1) in Pane(region, count, maxLines, PaneLimit(count, maxLines))
  {
    PaneShows(region, count, maxLines, PaneLimit(count, maxLines), count - 1);
  }

  // ------------------------------------------------- overlays

  function HeaderCount(lines: nat): nat {
    Min(2, lines)
  }

  function OverlayViewport(lines: nat, height: nat): nat {
    Max(height - HeaderCount(lines) - 1, 1)
  }

  function OverlayLimit(lines: nat, height: nat): nat {
    var count := lines - HeaderCount(lines);
    if count <= OverlayViewport(lines, height) then 0 else count - OverlayViewport(lines, height) + 1
  }

  function OverlayRange(lines: nat, height: nat, offset: int): (range: (nat, nat))
    ensures range.0 <= range.1 <= lines - HeaderCount(lines)
  {
    var count := lines - HeaderCount(lines);
    var viewport := OverlayViewport(lines, height);
    if count <= viewport then (0, count)
    else
      var start := Min(Max(0, offset), OverlayLimit(lines, height));
      (start, Min(start + viewport - (if start > 0 then 1 else 0), count))
  }

  function Overlay(lines: nat, height: nat, offset: int): seq<Line> {
    var range := OverlayRange(lines, height, offset);
    Headers(HeaderCount(lines)) + Window(OverlayLines, lines - HeaderCount(lines), range.0, range.1)
  }

  /** `scrollWindow`: the first two lines stay, and the others scroll below them. */
  method ScrollWindow(lines: nat, offset: int, contentHeight: nat, limits: ScrollLimits) returns (rows: seq<Line>)
    modifies limits`overlay
    ensures rows == Overlay(lines, contentHeight, offset)
    ensures limits.overlay == if OverlayLimit(lines, contentHeight) > 0 then OverlayLimit(lines, contentHeight)
      else old(limits.overlay)
  {
    var headerCount := Min(2, lines);
    rows := Headers(headerCount);
    var body := lines - headerCount;
    var viewport := Max(contentHeight - headerCount - 1, 1);
    if body <= viewport {
      assert Window(OverlayLines, body, 0, body) == Rows(OverlayLines, 0, body);
      return rows + Rows(OverlayLines, 0, body);
    }
    var maxOffset := body - viewport + 1;
    limits.overlay := maxOffset;
    var clamped := Min(Max(0, offset), maxOffset);
    var visible := Rows(OverlayLines, clamped, Min(clamped + viewport - (if clamped > 0 then 1 else 0), body));
    if clamped > 0 {
      rows := rows + [Above(clamped)];
    }
    rows := rows + visible;
    var remaining := body - clamped - |visible|;
    if remaining > 0 {
      rows := rows + [Below(remaining)];
    }
  }

  /** An overlay accounts for every line under its heading at every offset, and from four lines on it is
      no taller than the content. */
  lemma OverlayAccountsForLines(lines: nat, height: nat, offset: int)
    ensures Tally(Overlay(lines, height, offset)) == lines - HeaderCount(lines)
    ensures height >= 4 ==> |Overlay(lines, height, offset)| <= height
  {
    var range := OverlayRange(lines, height, offset);
    TallyWindow(OverlayLines, lines - HeaderCount(lines), range.0, range.1);
    TallyConcat(Headers(HeaderCount(lines)), Window(OverlayLines, lines - HeaderCount(lines), range.0, range.1));
    TallyNone(Headers(HeaderCount(lines)));
  }

  lemma OverlayShows(lines: nat, height: nat, offset: int, i: nat)
    ensures var range := OverlayRange(lines, height, offset);
            Row(OverlayLines, i) in Overlay(lines, height, offset) <==> range.0 <= i < range.1
  {
    var range := OverlayRange(lines, height, offset);
    WindowShows(OverlayLines, lines - HeaderCount(lines), range.0, range.1, i);
  }

  // ------------------------------------------------- the conversation

  function ConversationViewport(total: nat, height: nat): nat {
    Max(height - (if total > height - 1 then 3 else 1), 1)
  }

  function ConversationLimit(total: nat, height: nat): nat {
    Max(0, total - ConversationViewport(total, height))
  }

  function ConversationRange(total: nat, height: nat, offset: nat): (range: (nat, nat))
    ensures range.0 <= range.1 <= total
  {
    var start := Min(offset, ConversationLimit(total, height));
    (start, Min(start + ConversationViewport(total, height), total))
  }

  function Conversation(total: nat, height: nat, offset: nat): seq<Line> {
    var range := ConversationRange(total, height, offset);
    [Title(ConversationLines)] + Window(ConversationLines, total, range.0, range.1)
  }

  /** `renderConversation`, from the lines on. */
  method RenderConversation(total: nat, contentHeight: nat, scrollOffset: nat, limits: ScrollLimits)
    returns (rows: seq<Line>)
    modifies limits`conversation
    ensures rows == Conversation(total, contentHeight, scrollOffset)
    ensures limits.conversation == ConversationLimit(total, contentHeight)
  {
    var needsScroll := total > contentHeight - 1;
    var viewport := Max(contentHeight - (if needsScroll then 3 else 1), 1);
    limits.conversation := Max(0, total - viewport);
    var offset := Min(scrollOffset, limits.conversation);
    var visibleEnd := Min(offset + viewport, total);
    rows := [Title(ConversationLines)];
    rows := PushWindow(rows, ConversationLines, total, offset, visibleEnd);
  }

  lemma ConversationAccountsForLines(total: nat, height: nat, offset: nat)
    ensures Tally(Conversation(total, height, offset)) == total
    ensures height >= 4 ==> |Conversation(total, height, offset)| <= height
  {
    var range := ConversationRange(total, height, offset);
    TallyWindow(ConversationLines, total, range.0, range.1);
    TallyConcat([Title(ConversationLines)], Window(ConversationLines, total, range.0, range.1));
  }

  lemma ConversationShows(total: nat, height: nat, offset: nat, i: nat)
    ensures var range := ConversationRange(total, height, offset);
            Row(ConversationLines, i) in Conversation(total, height, offset) <==> range.0 <= i < range.1
  {
    var range := ConversationRange(total, height, offset);
    WindowShows(ConversationLines, total, range.0, range.1, i);
  }

  // ------------------------------------------------- lists

  /** `viewportWindow`: a window around the selection. */
  method ViewportWindow(total: nat, selectedIndex: nat, size: nat) returns (start: int, end: int)
    ensures (start, end) == ListRange(total, selectedIndex, size)
  {
    if total <= size {
      return 0, total;
    }
    var half := size / 2;
    start := Max(0, selectedIndex - half);
    end := start + size;
    if end > total {
      end := total;
      start := end - size;
    }
  }

  /** The window is as large as it may be and lies within the list; a selection that exists is inside,
      and as near to the middle as the ends of the list let it be. */
  function ListRange(total: nat, selected: nat, size: nat): (range: (nat, nat))
    ensures range.0 <= range.1 <= total && range.1 - range.0 == Min(size, total)
    ensures size > 0 && selected < total ==> range.0 <= selected < range.1
    ensures range.0 > 0 && range.1 < total ==> selected - range.0 == size / 2
  {
    if total <= size then (0, total)
    else
      var start := Min(Max(0, selected - size / 2), total - size);
      (start, start + size)
  }

  /** A list pane; its title is followed by a note when there is nothing to list. */
  function ListPane(region: Region, total: nat, selected: nat, size: nat): seq<Line> {
    if total == 0 then [Title(region), Empty]
    else
      var range := ListRange(total, selected, size);
      [Title(region)] + Window(region, total, range.0, range.1)
  }

  /** `renderProjectPane`, `renderSessionPane`, `renderSearchGroupPane` and `renderTurnPane`. */
  method RenderListPane(region: Region, total: nat, selected: nat, size: nat) returns (lines: seq<Line>)
    ensures lines == ListPane(region, total, selected, size)
  {
    lines := [Title(region)];
    if total == 0 {
      return lines + [Empty];
    }
    var start, end := ViewportWindow(total, selected, size);
    lines := PushWindow(lines, region, total, start, end);
  }

  lemma ListAccountsForRows(region: Region, total: nat, selected: nat, size: nat)
    ensures Tally(ListPane(region, total, selected, size)) == total
    ensures |ListPane(region, total, selected, size)| <= Max(size, 1) + 3
  {
    if total == 0 {
      TallyNone([Title(region), Empty]);
    } else {
      var range := ListRange(total, selected, size);
      TallyWindow(region, total, range.0, range.1);
      TallyConcat([Title(region)], Window(region, total, range.0, range.1));
    }
  }

  /** The line of a list pane that holds the selection. */
  function SelectionLine(total: nat, selected: nat, size: nat): nat
    requires size > 0 && selected < total
  {
    var start := ListRange(total, selected, size).0;
    1 + (if start > 0 then 1 else 0) + (selected - start)
  }

  lemma WindowAt(region: Region, count: nat, from: nat, to: nat, i: nat)
    requires from <= i < to <= count
    ensures var lines := Window(region, count, from, to);
            var at := |AboveHint(from)| + (i - from);
            at < |lines| && lines[at] == Row(region, i)
  {
    assert Rows(region, from, to)[i - from] == Row(region, i);
  }

  lemma SelectionIsListed(region: Region, total: nat, selected: nat, size: nat)
    requires size > 0 && selected < total
    ensures var lines := ListPane(region, total, selected, size);
            var at := SelectionLine(total, selected, size);
            at < |lines| && lines[at] == Row(region, selected) && at <= size + 1
  {
    var range := ListRange(total, selected, size);
    WindowAt(region, total, range.0, range.1, selected);
  }

  // ------------------------------------------------- two columns

  function LeftViewport(height: nat): nat {
    Max(height - 2, 4)
  }

  function TurnsViewport(height: nat): nat {
    Max((height - 4) / 2, 4)
  }

  function TurnLines(view: View, height: nat): seq<Line> {
    var lines := ListPane(TurnList, view.turnRows, view.turnSelected, TurnsViewport(height));
    var room: nat := if view.focus.DetailPane? then Max(0, Min(TurnsViewport(height) + 3, height - 5))
                     else TurnsViewport(height) + 3;
    lines[..Min(room, |lines|)]
  }

  /** The height that is left for the detail pane. */
  function Remaining(turnLines: seq<Line>, height: nat): nat {
    Max(height - |turnLines| - 1, 4)
  }

  function DetailHeight(view: View, height: nat): nat {
    Remaining(TurnLines(view, height), height)
  }

  function DetailOffset(view: View): nat {
    if view.focus.DetailPane? then view.detailOffset else 0
  }

  /** The turns, a blank and the detail pane, cut to the height. */
  function Stacked(turnLines: seq<Line>, detail: seq<Line>, height: nat): seq<Line> {
    var lines := turnLines + [Blank] + detail;
    lines[..Min(height, |lines|)]
  }

  /** The right column for given turns and detail rows. */
  function RightColumn(turnLines: seq<Line>, detailRows: nat, offset: nat, height: nat): seq<Line> {
    Stacked(turnLines, Pane(DetailRows, detailRows, Remaining(turnLines, height), offset), height)
  }

  function RightLines(view: View, height: nat): seq<Line> {
    RightColumn(TurnLines(view, height), view.detailRows, DetailOffset(view), height)
  }

  function LeftLines(view: View, height: nat): seq<Line> {
    ListPane(LeftList, view.leftRows, view.leftSelected, LeftViewport(height))
  }

  function LineAt(lines: seq<Line>, k: nat): Line {
    if k < |lines| then lines[k] else Blank
  }

  function Columns(left: seq<Line>, right: seq<Line>, height: nat): (rows: seq<Cell>)
    ensures |rows| == Max(Max(|left|, |right|), height)
    ensures forall k | 0 <= k < |rows| :: rows[k] == Two(LineAt(left, k), LineAt(right, k))
  {
    var count: nat := Max(Max(|left|, |right|), height);
    seq(count, k requires 0 <= k < count => Two(LineAt(left, k), LineAt(right, k)))
  }

  /** `renderTwoColumn`. */
  method RenderTwoColumn(view: View, contentHeight: nat, limits: ScrollLimits) returns (rows: seq<Cell>)
    requires contentHeight >= MIN_CONTENT_HEIGHT
    modifies limits`detail
    ensures rows == Columns(LeftLines(view, contentHeight), RightLines(view, contentHeight), contentHeight)
    ensures var limit := PaneLimit(view.detailRows, DetailHeight(view, contentHeight));
            limits.detail == if limit > 0 then limit else old(limits.detail)
  {
    var leftLines := RenderListPane(LeftList, view.leftRows, view.leftSelected, Max(contentHeight - 2, 4));
    var rightLines := RenderRightColumn(view, contentHeight, limits);
    rows := JoinColumns(leftLines, rightLines, contentHeight);
  }

  method RenderRightColumn(view: View, contentHeight: nat, limits: ScrollLimits) returns (rightLines: seq<Line>)
    requires contentHeight >= MIN_CONTENT_HEIGHT
    modifies limits`detail
    ensures rightLines == RightLines(view, contentHeight)
    ensures var limit := PaneLimit(view.detailRows, DetailHeight(view, contentHeight));
            limits.detail == if limit > 0 then limit else old(limits.detail)
  {
    var turnLines := RenderTurnColumn(view, contentHeight);
    var detailHeight := Remaining(turnLines, contentHeight);
    var offset := if view.focus.DetailPane? then view.detailOffset else 0;
    var detailLines := RenderScrollablePane(DetailRows, view.detailRows, detailHeight, offset, limits);
    rightLines := Stacked(turnLines, detailLines, contentHeight);
  }

  method RenderTurnColumn(view: View, contentHeight: nat) returns (turnLines: seq<Line>)
    requires contentHeight >= MIN_CONTENT_HEIGHT
    ensures turnLines == TurnLines(view, contentHeight)
  {
    var turnsViewport := Max((contentHeight - 4) / 2, 4);
    var turnPaneHeight := if view.focus.DetailPane? then Min(turnsViewport + 3, contentHeight - 5)
                          else turnsViewport + 3;
    turnLines := RenderListPane(TurnList, view.turnRows, view.turnSelected, turnsViewport);
    turnLines := turnLines[..Min(turnPaneHeight, |turnLines|)];
  }

  method JoinColumns(left: seq<Line>, right: seq<Line>, height: nat) returns (rows: seq<Cell>)
    ensures rows == Columns(left, right, height)
  {
    rows := [];
    for index := 0 to Max(Max(|left|, |right|), height)
      invariant |rows| == index
      invariant forall k | 0 <= k < index :: rows[k] == Two(LineAt(left, k), LineAt(right, k))
    {
      rows := rows + [Two(LineAt(left, index), LineAt(right, index))];
    }
  }

  /** The right column loses no line of the detail pane exactly when the turns leave it five lines; and a
      focused detail pane is always left them. */
  lemma DetailKeepsItsLines(view: View, height: nat)
    requires height >= MIN_CONTENT_HEIGHT
    ensures var detail := Pane(DetailRows, view.detailRows, DetailHeight(view, height), DetailOffset(view));
            (RightLines(view, height) == TurnLines(view, height) + [Blank] + detail)
              <==> |TurnLines(view, height)| <= height - 5
    ensures view.focus.DetailPane? ==> |TurnLines(view, height)| <= height - 5
  {
    var lines := TurnLines(view, height) + [Blank]
      + Pane(DetailRows, view.detailRows, DetailHeight(view, height), DetailOffset(view));
    if |lines| <= height {
      assert lines[..|lines|] == lines;
    }
  }

  // ------------------------------------------------- the body and the frame

  function Whole(lines: seq<Line>): (rows: seq<Cell>)
    ensures |rows| == |lines| && forall k | 0 <= k < |lines| :: rows[k] == One(lines[k])
  {
    seq(|lines|, k requires 0 <= k < |lines| => One(lines[k]))
  }

  predicate Narrow(width: nat) {
    width < MIN_LEFT_COLUMN + MIN_RIGHT_COLUMN + 3
  }

  /** Whether the body has two columns. */
  predicate TwoColumns(view: View, width: nat) {
    !view.overlay && !view.focus.ConversationPane? && !Narrow(width)
  }

  /** The one pane of a body that has no columns. */
  function SinglePane(view: View, height: nat): seq<Line>
    requires height >= MIN_CONTENT_HEIGHT
  {
    if view.overlay then Overlay(view.overlayLines, height, view.overlayOffset)
    else match view.focus
      case ConversationPane => Conversation(view.conversationLines, height, view.conversationOffset)
      case DetailPane => Pane(DetailRows, view.detailRows, height, view.detailOffset)
      case _ => FocusedList(view, height - 3)
  }

  function Body(view: View, width: nat, height: nat): seq<Cell>
    requires height >= MIN_CONTENT_HEIGHT
  {
    if TwoColumns(view, width) then Columns(LeftLines(view, height), RightLines(view, height), height)
    else Whole(SinglePane(view, height))
  }

  /** The bounds that the frame reports: those of the panes that it draws, and 0 for the others. */
  function LimitsOf(view: View, width: nat, height: nat): Limits
    requires height >= MIN_CONTENT_HEIGHT
  {
    if TwoColumns(view, width) then Limits(0, PaneLimit(view.detailRows, DetailHeight(view, height)), 0)
    else SingleLimits(view, height)
  }

  method RenderBody(view: View, width: nat, contentHeight: nat, limits: ScrollLimits) returns (rows: seq<Cell>)
    requires contentHeight >= MIN_CONTENT_HEIGHT
    requires limits.Value() == Limits(0, 0, 0)
    modifies limits
    ensures rows == Body(view, width, contentHeight) && limits.Value() == LimitsOf(view, width, contentHeight)
  {
    if !view.overlay && !view.focus.ConversationPane? && !Narrow(width) {
      rows := RenderTwoColumn(view, contentHeight, limits);
    } else {
      var lines := RenderSinglePane(view, contentHeight, limits);
      rows := Whole(lines);
    }
  }

  /** The bounds of the one pane. */
  function SingleLimits(view: View, height: nat): Limits
    requires height >= MIN_CONTENT_HEIGHT
  {
    if view.overlay then Limits(OverlayLimit(view.overlayLines, height), 0, 0)
    else match view.focus
      case ConversationPane => Limits(0, 0, ConversationLimit(view.conversationLines, height))
      case DetailPane => Limits(0, PaneLimit(view.detailRows, height), 0)
      case _ => Limits(0, 0, 0)
  }

  method RenderSinglePane(view: View, contentHeight: nat, limits: ScrollLimits) returns (lines: seq<Line>)
    requires contentHeight >= MIN_CONTENT_HEIGHT
    requires limits.Value() == Limits(0, 0, 0)
    modifies limits
    ensures lines == SinglePane(view, contentHeight) && limits.Value() == SingleLimits(view, contentHeight)
  {
    if view.overlay {
      lines := ScrollWindow(view.overlayLines, view.overlayOffset, contentHeight, limits);
    } else if view.focus.ConversationPane? {
      lines := RenderConversation(view.conversationLines, contentHeight, view.conversationOffset, limits);
    } else if view.focus.DetailPane? {
      lines := RenderScrollablePane(DetailRows, view.detailRows, contentHeight, view.detailOffset, limits);
    } else {
      lines := RenderFocusedList(view, contentHeight - 3);
    }
  }

  function FocusedList(view: View, size: nat): seq<Line> {
    if view.focus.TurnsPane? then ListPane(TurnList, view.turnRows, view.turnSelected, size)
    else ListPane(LeftList, view.leftRows, view.leftSelected, size)
  }

  method RenderFocusedList(view: View, size: nat) returns (lines: seq<Line>)
    ensures lines == FocusedList(view, size)
  {
    if view.focus.TurnsPane? {
      lines := RenderListPane(TurnList, view.turnRows, view.turnSelected, size);
    } else {
      lines := RenderListPane(LeftList, view.leftRows, view.leftSelected, size);
    }
  }

  /** The height that a frame is drawn at. */
  function FrameHeight(asked: nat): nat {
    Max(CHROME_LINES + MIN_CONTENT_HEIGHT, asked)
  }

  function FillCells(body: seq<Cell>, height: nat): (filled: seq<Cell>)
    ensures |filled| == height
  {
    if |body| >= height then body[..height] else body + Whole(Blanks(height - |body|))
  }

  method PadBody(drawn: seq<Cell>, contentHeight: nat) returns (body: seq<Cell>)
    ensures body == FillCells(drawn, contentHeight)
  {
    body := drawn;
    while |body| < contentHeight
      invariant |body| <= Max(contentHeight, |drawn|) && |drawn| <= |body|
      invariant body == drawn + Whole(Blanks(|body| - |drawn|))
      decreases contentHeight - |body|
    {
      body := body + [One(Blank)];
    }
    body := body[..contentHeight];
  }

  function FilledBody(view: View, width: nat, height: nat): (body: seq<Cell>)
    requires height >= MIN_CONTENT_HEIGHT
    ensures |body| == height
  {
    FillCells(Body(view, width, height), height)
  }

  /** The lines around the body: title, subtitle, counts and a blank above, message and status bar below. */
  function Top(): (cells: seq<Cell>)
    ensures |cells| == 4
  {
    [One(Header(0)), One(Header(1)), One(Header(2)), One(Blank)]
  }

  function Bottom(): (cells: seq<Cell>)
    ensures |cells| == 2
  {
    [One(Header(3)), One(Header(4))]
  }

  function FrameWidth(asked: nat): nat {
    Max(MIN_WIDTH, asked)
  }

  function ContentHeight(asked: nat): (height: nat)
    ensures height >= MIN_CONTENT_HEIGHT
  {
    FrameHeight(asked) - CHROME_LINES
  }

  function Frame(view: View, width: nat, asked: nat): seq<Cell> {
    Top() + FilledBody(view, FrameWidth(width), ContentHeight(asked)) + Bottom()
  }

  function FrameLimits(view: View, width: nat, asked: nat): Limits {
    LimitsOf(view, FrameWidth(width), ContentHeight(asked))
  }

  /** `renderLiteFrameLayout`. */
  method RenderFrame(view: View, width: nat, height: nat) returns (frame: seq<Cell>, limits: Limits)
    ensures frame == Frame(view, width, height) && limits == FrameLimits(view, width, height)
  {
    var scrollLimits := new ScrollLimits();
    var body := RenderBody(view, FrameWidth(width), ContentHeight(height), scrollLimits);
    limits := scrollLimits.Value();
    body := PadBody(body, ContentHeight(height));
    frame := Top() + body + Bottom();
  }

  /** A frame is as tall as asked exactly from fourteen lines on; the smallest frame has fourteen. */
  lemma FrameHeightIff(view: View, width: nat, asked: nat)
    ensures |Frame(view, width, asked)| == FrameHeight(asked)
    ensures |Frame(view, width, asked)| == asked <==> asked >= 14
  {}

  // ------------------------------------------------- scrolling reaches everything

  /** Whether the movement keys scroll, and what. */
  predicate Scrolls(view: View) {
    view.overlay || view.focus.ConversationPane? || view.focus.DetailPane?
  }

  function ActiveRegion(view: View): Region {
    if view.overlay then OverlayLines else if view.focus.ConversationPane? then ConversationLines else DetailRows
  }

  /** The rows that scroll; the two heading lines of an overlay do not. */
  function ActiveCount(view: View): nat {
    if view.overlay then view.overlayLines - HeaderCount(view.overlayLines)
    else if view.focus.ConversationPane? then view.conversationLines
    else view.detailRows
  }

  function ActiveLimit(view: View, limits: Limits): nat {
    if view.overlay then limits.overlay else if view.focus.ConversationPane? then limits.conversation else limits.detail
  }

  function ScrolledTo(view: View, offset: nat): View {
    if view.overlay then view.(overlayOffset := offset)
    else if view.focus.ConversationPane? then view.(conversationOffset := offset)
    else view.(detailOffset := offset)
  }

  function ActiveOffset(view: View): nat {
    if view.overlay then view.overlayOffset
    else if view.focus.ConversationPane? then view.conversationOffset
    else view.detailOffset
  }

  predicate Holds(cell: Cell, line: Line) {
    match cell
    case One(l) => l == line
    case Two(left, right) => left == line || right == line
  }

  /** A line is on the screen. */
  ghost predicate OnScreen(cells: seq<Cell>, line: Line) {
    exists k :: 0 <= k < |cells| && Holds(cells[k], line)
  }

  lemma OnFrame(view: View, width: nat, asked: nat, line: Line)
    requires OnScreen(FilledBody(view, FrameWidth(width), ContentHeight(asked)), line)
    ensures OnScreen(Frame(view, width, asked), line)
  {
    var body := FilledBody(view, FrameWidth(width), ContentHeight(asked));
    MiddleOnScreen(Top(), body, Bottom(), line);
  }

  lemma MiddleOnScreen(a: seq<Cell>, b: seq<Cell>, c: seq<Cell>, line: Line)
    requires OnScreen(b, line)
    ensures OnScreen(a + b + c, line)
  {
    var k :| 0 <= k < |b| && Holds(b[k], line);
    assert (a + b + c)[|a| + k] == b[k];
    assert Holds((a + b + c)[|a| + k], line);
  }

  /** Where the body has one pane. */
  lemma SingleBody(view: View, width: nat, height: nat)
    requires height >= MIN_CONTENT_HEIGHT && !TwoColumns(view, width)
    ensures FilledBody(view, width, height) == FillCells(Whole(SinglePane(view, height)), height)
  {}

  lemma SinglePaneOnScreen(view: View, width: nat, height: nat, line: Line)
    requires height >= MIN_CONTENT_HEIGHT && !TwoColumns(view, width)
    requires line in SinglePane(view, height) && |SinglePane(view, height)| <= height
    ensures OnScreen(FilledBody(view, width, height), line)
  {
    SingleBody(view, width, height);
    WholeOnScreen(SinglePane(view, height), height, line);
  }

  /** Where the body is in two columns. */
  lemma WideBody(view: View, width: nat, height: nat)
    requires height >= MIN_CONTENT_HEIGHT && TwoColumns(view, width)
    ensures FilledBody(view, width, height)
      == FillCells(Columns(LeftLines(view, height), RightLines(view, height), height), height)
  {}

  lemma WholeOnScreen(lines: seq<Line>, height: nat, line: Line)
    requires line in lines && |lines| <= height
    ensures OnScreen(FillCells(Whole(lines), height), line)
  {
    var k :| 0 <= k < |lines| && lines[k] == line;
    assert Holds(FillCells(Whole(lines), height)[k], line);
  }

  lemma RightOnScreen(left: seq<Line>, right: seq<Line>, height: nat, k: nat)
    requires k < |right| <= height
    ensures OnScreen(FillCells(Columns(left, right, height), height), right[k])
  {
    assert Holds(FillCells(Columns(left, right, height), height)[k], right[k]);
  }

  /** The offset that brings a row on the screen. */
  function OffsetFor(view: View, width: nat, height: nat, i: nat): nat
    requires height >= MIN_CONTENT_HEIGHT
  {
    if view.overlay then Min(i, OverlayLimit(view.overlayLines, height))
    else if view.focus.ConversationPane? then Min(i, ConversationLimit(view.conversationLines, height))
    else PaneOffsetFor(view.detailRows, if Narrow(width) then height else DetailHeight(view, height), i)
  }

  lemma DetailRowOnScreen(view: View, width: nat, height: nat, i: nat)
    requires height >= MIN_CONTENT_HEIGHT && !view.overlay && view.focus.DetailPane? && i < view.detailRows
    ensures var offset := OffsetFor(view, width, height, i);
            && offset <= LimitsOf(view, width, height).detail
            && OnScreen(FilledBody(view.(detailOffset := offset), width, height), Row(DetailRows, i))
  {
    var offset := OffsetFor(view, width, height, i);
    if Narrow(width) {
      PaneShows(DetailRows, view.detailRows, height, offset, i);
      NarrowDetailRowOnScreen(view.(detailOffset := offset), width, height, i);
    } else {
      TurnLinesIgnoreOffset(view, height, offset);
      PaneShows(DetailRows, view.detailRows, DetailHeight(view, height), offset, i);
      WideDetailRowOnScreen(view.(detailOffset := offset), width, height, i);
    }
  }

  lemma NarrowDetailRowOnScreen(view: View, width: nat, height: nat, i: nat)
    requires height >= MIN_CONTENT_HEIGHT && !view.overlay && view.focus.DetailPane? && Narrow(width)
    requires Row(DetailRows, i) in Pane(DetailRows, view.detailRows, height, view.detailOffset)
    ensures OnScreen(FilledBody(view, width, height), Row(DetailRows, i))
  {
    SinglePaneOnScreen(view, width, height, Row(DetailRows, i));
  }

  lemma WideDetailRowOnScreen(view: View, width: nat, height: nat, i: nat)
    requires height >= MIN_CONTENT_HEIGHT && !view.overlay && view.focus.DetailPane? && !Narrow(width)
    requires Row(DetailRows, i) in Pane(DetailRows, view.detailRows, DetailHeight(view, height), view.detailOffset)
    ensures OnScreen(FilledBody(view, width, height), Row(DetailRows, i))
  {
    var pane := Pane(DetailRows, view.detailRows, DetailHeight(view, height), view.detailOffset);
    DetailKeepsItsLines(view, height);
    var k :| 0 <= k < |pane| && pane[k] == Row(DetailRows, i);
    var right := RightLines(view, height);
    assert right[|TurnLines(view, height)| + 1 + k] == Row(DetailRows, i);
    RightOnScreen(LeftLines(view, height), right, height, |TurnLines(view, height)| + 1 + k);
    WideBody(view, width, height);
  }

  lemma OverlayLineOnScreen(view: View, width: nat, height: nat, i: nat)
    requires height >= MIN_CONTENT_HEIGHT && view.overlay && i < ActiveCount(view)
    ensures var offset := OffsetFor(view, width, height, i);
            && offset <= LimitsOf(view, width, height).overlay
            && OnScreen(FilledBody(view.(overlayOffset := offset), width, height), Row(OverlayLines, i))
  {
    var offset := OffsetFor(view, width, height, i);
    OverlayShows(view.overlayLines, height, offset, i);
    OverlayAccountsForLines(view.overlayLines, height, offset);
    SinglePaneOnScreen(view.(overlayOffset := offset), width, height, Row(OverlayLines, i));
  }

  lemma ConversationLineOnScreen(view: View, width: nat, height: nat, i: nat)
    requires height >= MIN_CONTENT_HEIGHT && !view.overlay && view.focus.ConversationPane? && i < view.conversationLines
    ensures var offset := OffsetFor(view, width, height, i);
            && offset <= LimitsOf(view, width, height).conversation
            && OnScreen(FilledBody(view.(conversationOffset := offset), width, height), Row(ConversationLines, i))
  {
    var offset := OffsetFor(view, width, height, i);
    ConversationShows(view.conversationLines, height, offset, i);
    ConversationAccountsForLines(view.conversationLines, height, offset);
    SinglePaneOnScreen(view.(conversationOffset := offset), width, height, Row(ConversationLines, i));
  }

  /** At every screen size, every row of the overlay, conversation or detail pane that the keys scroll is on
      the screen at some offset within the bound that the frame reports. */
  lemma EveryRowIsReachable(view: View, width: nat, asked: nat, i: nat)
    requires Scrolls(view) && i < ActiveCount(view)
    ensures exists offset: nat ::
      && offset <= ActiveLimit(view, FrameLimits(view, width, asked))
      && OnScreen(Frame(ScrolledTo(view, offset), width, asked), Row(ActiveRegion(view), i))
  {
    var w, height: nat := FrameWidth(width), ContentHeight(asked);
    var offset := OffsetFor(view, w, height, i);
    if view.overlay {
      OverlayLineOnScreen(view, w, height, i);
    } else if view.focus.ConversationPane? {
      ConversationLineOnScreen(view, w, height, i);
    } else {
      DetailRowOnScreen(view, w, height, i);
    }
    OnFrame(ScrolledTo(view, offset), width, asked, Row(ActiveRegion(view), i));
  }

  /** How tall the detail pane is. */
  function DetailTall(view: View, width: nat, height: nat): nat {
    if Narrow(width) then height else DetailHeight(view, height)
  }

  /** The lines of the pane that the keys scroll. */
  function ActiveLines(view: View, width: nat, height: nat): seq<Line> {
    if view.overlay then Overlay(view.overlayLines, height, view.overlayOffset)
    else if view.focus.ConversationPane? then Conversation(view.conversationLines, height, view.conversationOffset)
    else Pane(DetailRows, view.detailRows, DetailTall(view, width, height), view.detailOffset)
  }

  /** At every offset every row is shown or counted, so nothing that scrolls is ever unaccounted for. */
  lemma ActivePaneAccounts(view: View, width: nat, height: nat)
    requires height >= MIN_CONTENT_HEIGHT && Scrolls(view)
    ensures Tally(ActiveLines(view, width, height)) == ActiveCount(view)
  {
    if view.overlay {
      OverlayAccountsForLines(view.overlayLines, height, view.overlayOffset);
    } else if view.focus.ConversationPane? {
      ConversationAccountsForLines(view.conversationLines, height, view.conversationOffset);
    } else {
      PaneAccountsForRows(DetailRows, view.detailRows, DetailTall(view, width, height), view.detailOffset);
    }
  }

  /** The bounds do not depend on where the panes are scrolled to, and a frame drawn at an offset past its
      bound is the frame at the bound: the state may be clamped after the frame is drawn. */
  lemma ClampedFrameIsTheSame(view: View, width: nat, asked: nat)
    ensures var limits := FrameLimits(view, width, asked);
            var clamped := ScrolledTo(view, Min(ActiveOffset(view), ActiveLimit(view, limits)));
            && FrameLimits(clamped, width, asked) == limits
            && (Scrolls(view) ==> Frame(clamped, width, asked) == Frame(view, width, asked))
  {
    ClampedBodyIsTheSame(view, FrameWidth(width), ContentHeight(asked));
  }

  lemma ClampedBodyIsTheSame(view: View, width: nat, height: nat)
    requires height >= MIN_CONTENT_HEIGHT
    ensures var limits := LimitsOf(view, width, height);
            var clamped := ScrolledTo(view, Min(ActiveOffset(view), ActiveLimit(view, limits)));
            && LimitsOf(clamped, width, height) == limits
            && (Scrolls(view) ==> Body(clamped, width, height) == Body(view, width, height))
  {
    var clamped := ScrolledTo(view, Min(ActiveOffset(view), ActiveLimit(view, LimitsOf(view, width, height))));
    if !view.overlay && !view.focus.ConversationPane? {
      TurnLinesIgnoreOffset(view, height, clamped.detailOffset);
      if view.focus.DetailPane? {
        var tall := if Narrow(width) then height else DetailHeight(view, height);
        PaneClamps(DetailRows, view.detailRows, tall, view.detailOffset);
        if !Narrow(width) {
          SamePaneSameColumn(TurnLines(view, height), view.detailRows, clamped.detailOffset, view.detailOffset, height);
        }
      }
    }
  }

  lemma TurnLinesIgnoreOffset(view: View, height: nat, offset: nat)
    ensures TurnLines(view.(detailOffset := offset), height) == TurnLines(view, height)
  {}

  /** The bounds of a frame do not depend on where its panes are scrolled to. */
  lemma LimitsIgnoreOffset(view: View, width: nat, asked: nat, offset: nat)
    ensures FrameLimits(ScrolledTo(view, offset), width, asked) == FrameLimits(view, width, asked)
  {
    TurnLinesIgnoreOffset(view, ContentHeight(asked), offset);
  }

  lemma SamePaneSameColumn(turnLines: seq<Line>, detailRows: nat, offset: nat, offset': nat, height: nat)
    requires Pane(DetailRows, detailRows, Remaining(turnLines, height), offset)
          == Pane(DetailRows, detailRows, Remaining(turnLines, height), offset')
    ensures RightColumn(turnLines, detailRows, offset, height) == RightColumn(turnLines, detailRows, offset', height)
  {}

  // ------------------------------------------------- selections stay on the screen

  /** The selection of a focused list is on the screen. */
  lemma SelectionOnScreen(view: View, width: nat, asked: nat)
    requires !view.overlay
    ensures view.focus.ProjectsPane? && view.leftSelected < view.leftRows ==>
      OnScreen(Frame(view, width, asked), Row(LeftList, view.leftSelected))
    ensures view.focus.TurnsPane? && view.turnSelected < view.turnRows ==>
      OnScreen(Frame(view, width, asked), Row(TurnList, view.turnSelected))
  {
    var w, height: nat := FrameWidth(width), ContentHeight(asked);
    if view.focus.ProjectsPane? && view.leftSelected < view.leftRows {
      LeftSelectionOnScreen(view, w, height);
      OnFrame(view, width, asked, Row(LeftList, view.leftSelected));
    }
    if view.focus.TurnsPane? && view.turnSelected < view.turnRows {
      TurnSelectionOnScreen(view, w, height);
      OnFrame(view, width, asked, Row(TurnList, view.turnSelected));
    }
  }

  lemma LeftSelectionOnScreen(view: View, width: nat, height: nat)
    requires height >= MIN_CONTENT_HEIGHT && !view.overlay && view.focus.ProjectsPane?
      && view.leftSelected < view.leftRows
    ensures OnScreen(FilledBody(view, width, height), Row(LeftList, view.leftSelected))
  {
    var size: nat := if Narrow(width) then height - 3 else LeftViewport(height);
    SelectionIsListed(LeftList, view.leftRows, view.leftSelected, size);
    var at := SelectionLine(view.leftRows, view.leftSelected, size);
    assert Holds(FilledBody(view, width, height)[at], Row(LeftList, view.leftSelected));
  }

  lemma TurnSelectionOnScreen(view: View, width: nat, height: nat)
    requires height >= MIN_CONTENT_HEIGHT && !view.overlay && view.focus.TurnsPane? && view.turnSelected < view.turnRows
    ensures OnScreen(FilledBody(view, width, height), Row(TurnList, view.turnSelected))
  {
    if Narrow(width) {
      NarrowTurnSelection(view, width, height);
    } else {
      WideTurnSelection(view, width, height);
    }
  }

  lemma NarrowTurnSelection(view: View, width: nat, height: nat)
    requires height >= MIN_CONTENT_HEIGHT && !view.overlay && view.focus.TurnsPane? && view.turnSelected < view.turnRows
    requires Narrow(width)
    ensures OnScreen(FilledBody(view, width, height), Row(TurnList, view.turnSelected))
  {
    SelectionIsInList(TurnList, view.turnRows, view.turnSelected, height - 3);
    SinglePaneOnScreen(view, width, height, Row(TurnList, view.turnSelected));
  }

  lemma SelectionIsInList(region: Region, total: nat, selected: nat, size: nat)
    requires size > 0 && selected < total
    ensures Row(region, selected) in ListPane(region, total, selected, size)
    ensures |ListPane(region, total, selected, size)| <= size + 3
  {
    SelectionIsListed(region, total, selected, size);
    ListAccountsForRows(region, total, selected, size);
    var lines := ListPane(region, total, selected, size);
    assert lines[SelectionLine(total, selected, size)] in lines;
  }

  lemma WideTurnSelection(view: View, width: nat, height: nat)
    requires height >= MIN_CONTENT_HEIGHT && !view.overlay && view.focus.TurnsPane? && view.turnSelected < view.turnRows
    requires !Narrow(width)
    ensures OnScreen(FilledBody(view, width, height), Row(TurnList, view.turnSelected))
  {
    var size := TurnsViewport(height);
    var at := SelectionLine(view.turnRows, view.turnSelected, size);
    SelectionIsListed(TurnList, view.turnRows, view.turnSelected, size);
    TurnSelectionInColumn(view, height, at);
    RightOnScreen(LeftLines(view, height), RightLines(view, height), height, at);
    WideBody(view, width, height);
  }

  lemma TurnSelectionInColumn(view: View, height: nat, at: nat)
    requires height >= MIN_CONTENT_HEIGHT && view.focus.TurnsPane?
    requires var lines := ListPane(TurnList, view.turnRows, view.turnSelected, TurnsViewport(height));
             at < |lines| && at <= TurnsViewport(height) + 1 && lines[at] == Row(TurnList, view.turnSelected)
    ensures at < |RightLines(view, height)| <= height
      && RightLines(view, height)[at] == Row(TurnList, view.turnSelected)
  {
    ListAccountsForRows(TurnList, view.turnRows, view.turnSelected, TurnsViewport(height));
    assert TurnLines(view, height)[at] == Row(TurnList, view.turnSelected);
  }

  /** With the detail pane focused, the turns pane is cut short, and the selected turn stays in it exactly when
      its line comes before the cut. */
  lemma SelectedTurnKeptIff(view: View, height: nat)
    requires height >= MIN_CONTENT_HEIGHT && view.focus.DetailPane? && view.turnSelected < view.turnRows
    ensures Row(TurnList, view.turnSelected) in TurnLines(view, height)
       <==> SelectionLine(view.turnRows, view.turnSelected, TurnsViewport(height))
              < Min(TurnsViewport(height) + 3, height - 5)
  {
    var size := TurnsViewport(height);
    SelectionIsListed(TurnList, view.turnRows, view.turnSelected, size);
    var at := SelectionLine(view.turnRows, view.turnSelected, size);
    var lines := ListPane(TurnList, view.turnRows, view.turnSelected, size);
    forall k | 0 <= k < |lines| && lines[k] == Row(TurnList, view.turnSelected) ensures k == at {}
    if at < Min(size + 3, height - 5) {
      assert TurnLines(view, height)[at] == lines[at];
    }
  }

  /** On eight content lines the fifth of nine turns is selected, and a focused detail pane cuts it off. */
  lemma SelectedTurnCutExample()
    ensures var view := View(false, DetailPane, 0, 1, 0, 9, 4, 30, 0, 0, 0, 0);
            Row(TurnList, 4) !in TurnLines(view, 8)
  {
    var view := View(false, DetailPane, 0, 1, 0, 9, 4, 30, 0, 0, 0, 0);
    SelectedTurnKeptIff(view, 8);
  }

  /** The left list fits its column unless it is scrolled away from both ends; then it is one line too
      tall, and what the frame cuts off is the lower hint. */
  lemma LeftListFitsIff(view: View, height: nat)
    requires height >= MIN_CONTENT_HEIGHT && view.leftRows > 0
    ensures var lines := LeftLines(view, height);
            var range := ListRange(view.leftRows, view.leftSelected, LeftViewport(height));
            && (|lines| <= height <==> range.0 == 0 || range.1 == view.leftRows)
            && (|lines| > height ==> lines[height..] == [Below(view.leftRows - range.1)])
  {}
}
