/** The lists of the Lite browser as they are drawn: which row stands for what is selected. */
module LiteLists {
  // The turns pane puts a heading before each run of turns of one session, so its rows are not its turns.

  import opened LiteState
  import opened Numbers
  import opened Options
  import opened Sequences
  import R = LiteRender

  // ------------------------------------------------- the rows of the turns pane

  const HEADING := -1

  /** A turn that follows one of another session, or none. */
  predicate Leads(turns: seq<Turn>, i: nat)
    requires i < |turns|
  {
    i == 0 || turns[i].session != turns[i - 1].session
  }

  /** The rows: the index of the turn that a row shows, or the mark of a heading. */
  function Rows(turns: seq<Turn>): seq<int> {
    if turns == [] then []
    else
      var last := |turns| - 1;
      Rows(turns[..last]) + (if Leads(turns, last) then [HEADING, last] else [last])
  }

  lemma RowsPush(turns: seq<Turn>, n: nat)
    requires n < |turns|
    ensures Rows(turns[..n + 1]) == Rows(turns[..n]) + (if Leads(turns, n) then [HEADING, n] else [n])
  {
    assert turns[..n + 1][..n] == turns[..n];
    assert Leads(turns[..n + 1], n) == Leads(turns, n);
  }

  /** The turns from `start` to before `end` are of one session, and a run of it begins at `start`. */
  predicate OneRun(turns: seq<Turn>, start: nat, end: nat) {
    && start < end <= |turns| && Leads(turns, start)
    && forall k | start <= k < end :: turns[k].session == turns[start].session
  }

  lemma RunRow(turns: seq<Turn>, start: nat, end: nat, k: nat)
    requires OneRun(turns, start, end) && start < k < end
    ensures Rows(turns[..k + 1]) == Rows(turns[..k]) + [k]
  {
    RowsPush(turns, k);
  }

  /** `buildTurnDisplayItems`: run by run. */
  method BuildTurnDisplayItems(turns: seq<Turn>) returns (items: seq<int>)
    ensures items == Rows(turns)
  {
    items := [];
    var groupStart: nat := 0;
    while groupStart < |turns|
      invariant groupStart <= |turns| && items == Rows(turns[..groupStart])
      invariant groupStart < |turns| ==> Leads(turns, groupStart)
    {
      var groupEnd := RunEnd(turns, groupStart);
      items := items + [HEADING];
      items := PushRun(items, turns, groupStart, groupEnd);
      groupStart := groupEnd;
    }
    assert turns[..|turns|] == turns;
  }

  method RunEnd(turns: seq<Turn>, start: nat) returns (end: nat)
    requires start < |turns| && Leads(turns, start)
    ensures OneRun(turns, start, end) && (end < |turns| ==> Leads(turns, end))
  {
    var session := turns[start].session;
    end := start;
    while end < |turns| && turns[end].session == session
      invariant start <= end <= |turns| && forall k | start <= k < end :: turns[k].session == session
    {
      end := end + 1;
    }
  }

  method PushRun(before: seq<int>, turns: seq<Turn>, start: nat, end: nat) returns (items: seq<int>)
    requires OneRun(turns, start, end) && before == Rows(turns[..start]) + [HEADING]
    ensures items == Rows(turns[..end])
  {
    RowsPush(turns, start);
    assert before + [start] == Rows(turns[..start]) + [HEADING, start];
    items := before + [start];
    for index := start + 1 to end
      invariant items == Rows(turns[..index])
    {
      RunRow(turns, start, end, index);
      items := items + [index];
    }
  }

  // ------------------------------------------------- the row of a turn

  /** The row that shows a turn. */
  function RowOf(turns: seq<Turn>, i: nat): nat
    requires i < |turns|
  {
    |Rows(turns[..i])| + (if Leads(turns, i) then 1 else 0)
  }

  /** Every turn has one row, and no other shows it; only headings show none. */
  lemma {:induction false} RowsShowTurns(turns: seq<Turn>, i: nat)
    requires i < |turns|
    ensures RowOf(turns, i) < |Rows(turns)| && Rows(turns)[RowOf(turns, i)] == i
    ensures forall k | 0 <= k < |Rows(turns)| && Rows(turns)[k] == i :: k == RowOf(turns, i)
    ensures forall k | 0 <= k < |Rows(turns)| :: HEADING <= Rows(turns)[k] < |turns|
  {
    var last := |turns| - 1;
    if i < last {
      RowsShowTurns(turns[..last], i);
      assert turns[..last][..i] == turns[..i];
    } else {
      RowsAreBelow(turns[..last]);
    }
  }

  lemma {:induction false} RowsAreBelow(turns: seq<Turn>)
    ensures forall k | 0 <= k < |Rows(turns)| :: HEADING <= Rows(turns)[k] < |turns|
  {
    if turns != [] {
      RowsAreBelow(turns[..|turns| - 1]);
    }
  }

  /** The row that the pane is centred on: that of the selected turn, or the first one. */
  function SelectedRow(rows: seq<int>, selected: int): nat {
    Max(0, FindIndex(rows, (row: int) => row == selected))
  }

  lemma SelectedRowIs(turns: seq<Turn>, i: nat)
    requires i < |turns|
    ensures SelectedRow(Rows(turns), i) == RowOf(turns, i) < |Rows(turns)|
  {
    RowsShowTurns(turns, i);
    var at, k := FindIndex(Rows(turns), (row: int) => row == i), RowOf(turns, i);
    assert Rows(turns)[k] == i;
    assert !(0 <= k < (if at >= 0 then at else |Rows(turns)|));
  }

  // ------------------------------------------------- what is listed

  /** The rows of the left pane: search groups, sessions or projects. */
  function LeftCount(m: Model, s: State): nat {
    if s.mode.Search? then |SearchGroups(m, s)| else if s.scope.Sessions? then |m.sessions| else |m.projects|
  }

  function LeftIndex(s: State): int {
    if s.mode.Search? then s.group else if s.scope.Sessions? then s.session else s.project
  }

  function TurnIndex(s: State): int {
    if s.mode.Search? then s.hit else s.turn
  }

  /** In bounds, what is selected in a list that is not empty is one of its members. */
  lemma IndexesInBounds(m: Model, s: State)
    requires InBounds(m, s)
    ensures LeftCount(m, s) > 0 ==> 0 <= LeftIndex(s) < LeftCount(m, s)
    ensures VisibleTurns(m, s) != [] ==> 0 <= TurnIndex(s) < |VisibleTurns(m, s)|
  {}

  /** How many rows the other panes have, by their content and the size of the screen. */
  datatype Counts = Counts(overlayLines: nat, detailRows: nat, conversationLines: nat)

  /** What is to be drawn of a state. */
  function ViewFrom(m: Model, s: State, counts: Counts): R.View {
    var rows := Rows(VisibleTurns(m, s));
    R.View(!s.overlay.NoOverlay?, s.focus,
           counts.overlayLines, LeftCount(m, s), Max(0, LeftIndex(s)), |rows|, SelectedRow(rows, TurnIndex(s)),
           counts.detailRows, counts.conversationLines,
           s.overlayOffset, s.detailOffset, s.conversationOffset)
  }

  /** The same, with the rows of the turns pane built as the renderer does. */
  method BuildView(m: Model, s: State, counts: Counts) returns (view: R.View)
    ensures view == ViewFrom(m, s, counts)
  {
    var groups := GetSearchGroups(m, s);
    var left := if s.mode.Search? then |groups| else if s.scope.Sessions? then |m.sessions| else |m.projects|;
    var rows := BuildTurnDisplayItems(VisibleTurns(m, s));
    view := R.View(!s.overlay.NoOverlay?, s.focus,
                   counts.overlayLines, left, Max(0, LeftIndex(s)), |rows|, SelectedRow(rows, TurnIndex(s)),
                   counts.detailRows, counts.conversationLines,
                   s.overlayOffset, s.detailOffset, s.conversationOffset);
  }

  /** What is selected in the focused list is on the screen, at every screen size. */
  lemma SelectionIsDrawn(m: Model, s: State, counts: Counts, width: nat, height: nat)
    requires InBounds(m, s) && s.overlay.NoOverlay?
    ensures s.focus.ProjectsPane? && LeftCount(m, s) > 0 ==>
      R.OnScreen(R.Frame(ViewFrom(m, s, counts), width, height), R.Row(R.LeftList, LeftIndex(s)))
    ensures s.focus.TurnsPane? && VisibleTurns(m, s) != [] ==>
      R.OnScreen(R.Frame(ViewFrom(m, s, counts), width, height),
                 R.Row(R.TurnList, RowOf(VisibleTurns(m, s), TurnIndex(s))))
  {
    IndexesInBounds(m, s);
    R.SelectionOnScreen(ViewFrom(m, s, counts), width, height);
    if VisibleTurns(m, s) != [] {
      SelectedRowIs(VisibleTurns(m, s), TurnIndex(s));
    }
  }
}
