/** The reducer of the Lite browser: panes, selections, overlays and the search query, and what every action
    keeps of them. What the reducer is given is the read model of one snapshot and the bounds that the last
    frame reported for scrolling. */
module LiteState {
  import opened CodeUnits
  import opened Numbers
  import opened Options
  import opened Sequences
  import R = LiteRender

  datatype Turn = Turn(id: string, session: string)

  datatype Project = Project(key: string, displayName: string, turns: seq<Turn>)

  datatype Session = Session(id: string, turns: seq<Turn>)

  datatype ProjectTag = ProjectTag(id: string, displayName: string)

  datatype Hit = Hit(turn: Turn, project: Option<ProjectTag>)

  /** The read model: its lists, and the lookups of the snapshot behind it. */
  datatype Model = Model(
    projects: seq<Project>, sessions: seq<Session>, search: Text -> seq<Hit>,
    getProject: string -> Option<string>, getSession: string -> Option<string>, getTurn: string -> Option<string>,
    lower: string -> string)

  datatype Mode = Browse | Search

  datatype Scope = Projects | Sessions

  datatype Overlay = NoOverlay | Help | Stats | Sources

  datatype Dimension = BySource | ByProject | ByModel | ByDay

  datatype Kind = Info | Busy | Failure

  datatype Status = Status(kind: Kind, text: string)

  datatype State = State(
    mode: Mode, scope: Scope, focus: R.Focus, overlay: Overlay, dimension: Dimension,
    project: int, session: int, turn: int, group: int, hit: int,
    query: Text, committed: bool,
    detailOffset: nat, conversationOffset: nat, overlayOffset: nat,
    status: Option<Status>)

  datatype Action =
    | FocusNext | FocusPrevious | FocusProjects | FocusTurns | FocusDetail
    | SetScope(scope: Scope)
    | MoveUp | MoveDown | PageUp | PageDown | JumpFirst | JumpLast
    | Drill | Retreat
    | EnterSearch | ExitSearch | Append(text: Text) | Backspace | CommitSearch
    | ToggleHelp | ToggleStats | ToggleSources | CloseOverlay | CycleDimension
    | SetStatus(status: Status) | ClearStatus
    | OpenProject(ref: string) | OpenSession(ref: string) | OpenTurn(ref: string) | OpenSearch(query: Text)

  const SEARCH_AUTO_COMMIT_LENGTH := 4
  const PAGE_STEP := 15
  const MAX_SAFE_INTEGER := 0x1F_FFFF_FFFF_FFFF

  // ------------------------------------------------- search groups

  datatype Group = Group(key: string, name: string, results: seq<Hit>)

  function KeyOf(hit: Hit): string {
    if hit.project.Some? then hit.project.value.id else "__unlinked__"
  }

  function NameOf(hit: Hit): string {
    if hit.project.Some? then hit.project.value.displayName else "Unlinked"
  }

  function HasKey(key: string): Hit -> bool {
    (hit: Hit) => KeyOf(hit) == key
  }

  /** The position of a key among the groups; their number when it is not there. */
  function GroupAt(groups: seq<Group>, key: string): (at: nat)
    ensures at <= |groups|
    ensures at < |groups| ==> groups[at].key == key
    ensures forall i | 0 <= i < at :: groups[i].key != key
  {
    if groups == [] || groups[0].key == key then 0 else 1 + GroupAt(groups[1..], key)
  }

  function AddHit(groups: seq<Group>, hit: Hit): seq<Group> {
    var at := GroupAt(groups, KeyOf(hit));
    if at == |groups| then groups + [Group(KeyOf(hit), NameOf(hit), [hit])]
    else groups[at := groups[at].(results := groups[at].results + [hit])]
  }

  function GroupHits(hits: seq<Hit>): seq<Group> {
    if hits == [] then [] else AddHit(GroupHits(hits[..|hits| - 1]), hits[|hits| - 1])
  }

  /** The map leads to the position of each key. */
  ghost predicate Indexes(byKey: map<string, nat>, groups: seq<Group>) {
    forall key :: (key in byKey <==> GroupAt(groups, key) < |groups|)
      && (key in byKey ==> byKey[key] == GroupAt(groups, key))
  }

  lemma IndexesNext(byKey: map<string, nat>, groups: seq<Group>, hit: Hit)
    requires Indexes(byKey, groups)
    ensures Indexes(byKey[KeyOf(hit) := GroupAt(groups, KeyOf(hit))], AddHit(groups, hit))
  {
    AddHitPositions(groups, hit);
    forall key ensures key in byKey <==> GroupAt(groups, key) < |groups| {}
  }

  /** The loop of `getSearchGroups`: a list of groups, and a map from keys to them. */
  method GroupResults(hits: seq<Hit>) returns (groups: seq<Group>)
    ensures groups == GroupHits(hits)
  {
    groups := [];
    var byKey: map<string, nat> := map[];
    for i := 0 to |hits|
      invariant groups == GroupHits(hits[..i]) && Indexes(byKey, groups)
    {
      assert hits[..i + 1][..i] == hits[..i];
      groups, byKey := GroupOne(groups, byKey, hits[i]);
    }
    assert hits[..|hits|] == hits;
  }

  /** One turn of the loop: a group is made for a new key, and the hit is pushed on the group of its key. */
  method GroupOne(groups: seq<Group>, byKey: map<string, nat>, hit: Hit)
    returns (groups': seq<Group>, byKey': map<string, nat>)
    requires Indexes(byKey, groups)
    ensures groups' == AddHit(groups, hit) && Indexes(byKey', groups')
  {
    var key := KeyOf(hit);
    groups', byKey' := groups, byKey;
    assert key in byKey <==> GroupAt(groups, key) < |groups|;
    if key !in byKey {
      byKey' := byKey[key := |groups|];
      groups' := groups + [Group(key, NameOf(hit), [])];
    }
    var at := byKey'[key];
    groups' := groups'[at := groups'[at].(results := groups'[at].results + [hit])];
    assert [] + [hit] == [hit];
    IndexesNext(byKey, groups, hit);
    assert byKey' == byKey[key := GroupAt(groups, key)];
  }

  lemma {:induction false} GroupAtUnique(groups: seq<Group>, key: string, at: nat)
    requires at <= |groups| && (forall i | 0 <= i < at :: groups[i].key != key)
      && (at < |groups| ==> groups[at].key == key)
    ensures GroupAt(groups, key) == at
  {}

  lemma AddHitPositions(groups: seq<Group>, hit: Hit)
    ensures var after := AddHit(groups, hit);
            && GroupAt(after, KeyOf(hit)) == GroupAt(groups, KeyOf(hit)) < |after|
            && (forall key | key != KeyOf(hit) ::
                  (GroupAt(after, key) < |after| <==> GroupAt(groups, key) < |groups|)
                  && (GroupAt(groups, key) < |groups| ==> GroupAt(after, key) == GroupAt(groups, key)))
  {
    var after := AddHit(groups, hit);
    GroupAtUnique(after, KeyOf(hit), GroupAt(groups, KeyOf(hit)));
    forall key | key != KeyOf(hit)
      ensures GroupAt(after, key) < |after| <==> GroupAt(groups, key) < |groups|
      ensures GroupAt(groups, key) < |groups| ==> GroupAt(after, key) == GroupAt(groups, key)
    {
      var at := GroupAt(groups, key);
      if at < |groups| {
        GroupAtUnique(after, key, at);
      } else {
        GroupAtUnique(after, key, |after|);
      }
    }
  }

  /** Where a key first occurs among the hits. */
  function FirstAt(hits: seq<Hit>, key: string): (at: nat)
    ensures at <= |hits| && (at < |hits| ==> KeyOf(hits[at]) == key)
    ensures forall i | 0 <= i < at :: KeyOf(hits[i]) != key
  {
    if hits == [] || KeyOf(hits[0]) == key then 0 else 1 + FirstAt(hits[1..], key)
  }

  /** Groups are the hits by project: each group holds the hits of its key in their order, named after the
      first of them; every hit is in a group; and groups come in the order in which their keys first occur. */
  ghost predicate Partitions(groups: seq<Group>, hits: seq<Hit>) {
    && (forall i, j | 0 <= i < j < |groups| :: FirstAt(hits, groups[i].key) < FirstAt(hits, groups[j].key))
    && (forall i | 0 <= i < |groups| ::
          && groups[i].results == Filter(hits, HasKey(groups[i].key)) && groups[i].results != []
          && groups[i].name == NameOf(groups[i].results[0]))
    && (forall hit | hit in hits :: GroupAt(groups, KeyOf(hit)) < |groups|)
  }

  lemma FirstAtPush(hits: seq<Hit>, hit: Hit, key: string)
    ensures FirstAt(hits + [hit], key)
         == if FirstAt(hits, key) < |hits| || KeyOf(hit) == key then FirstAt(hits, key) else |hits| + 1
  {
    var all, at := hits + [hit], FirstAt(hits, key);
    var at' := FirstAt(all, key);
    assert forall i | 0 <= i < |hits| :: all[i] == hits[i];
    if at < |hits| {
      assert KeyOf(all[at]) == key;
    } else {
      assert all[|hits|] == hit;
    }
  }

  lemma {:induction false} SearchGroupsPartition(hits: seq<Hit>)
    ensures Partitions(GroupHits(hits), hits)
  {
    if hits != [] {
      var init, last := hits[..|hits| - 1], hits[|hits| - 1];
      assert hits == init + [last];
      SearchGroupsPartition(init);
      PartitionPush(GroupHits(init), init, last);
    }
  }

  lemma PartitionPush(groups: seq<Group>, hits: seq<Hit>, hit: Hit)
    requires Partitions(groups, hits)
    ensures Partitions(AddHit(groups, hit), hits + [hit])
  {
    var after, all := AddHit(groups, hit), hits + [hit];
    AddHitPositions(groups, hit);
    OrderPush(groups, hits, hit);
    forall i | 0 <= i < |after|
      ensures after[i].results == Filter(all, HasKey(after[i].key)) && after[i].results != []
      ensures after[i].name == NameOf(after[i].results[0])
    {
      ContentsPush(groups, hits, hit, i);
    }
    forall h | h in all ensures GroupAt(after, KeyOf(h)) < |after| {
      assert h in hits || h == hit;
    }
  }

  lemma OrderPush(groups: seq<Group>, hits: seq<Hit>, hit: Hit)
    requires Partitions(groups, hits)
    ensures var after := AddHit(groups, hit);
            forall i, j | 0 <= i < j < |after| ::
              FirstAt(hits + [hit], after[i].key) < FirstAt(hits + [hit], after[j].key)
  {
    var after, at := AddHit(groups, hit), GroupAt(groups, KeyOf(hit));
    if at == |groups| {
      NewKeyIsFirst(hits, hit, groups);
    }
    forall i, j | 0 <= i < j < |after|
      ensures FirstAt(hits + [hit], after[i].key) < FirstAt(hits + [hit], after[j].key)
    {
      FirstAtPush(hits, hit, after[i].key);
      FirstAtPush(hits, hit, after[j].key);
      GroupKeyOccurs(hits, groups[i]);
      if j < |groups| {
        GroupKeyOccurs(hits, groups[j]);
      }
    }
  }

  lemma ContentsPush(groups: seq<Group>, hits: seq<Hit>, hit: Hit, i: nat)
    requires Partitions(groups, hits) && i < |AddHit(groups, hit)|
    ensures var group := AddHit(groups, hit)[i];
            && group.results == Filter(hits + [hit], HasKey(group.key)) && group.results != []
            && group.name == NameOf(group.results[0])
  {
    var group, at := AddHit(groups, hit)[i], GroupAt(groups, KeyOf(hit));
    FilterPush(hits, hit, HasKey(group.key));
    if i == |groups| {
      NewKeyIsFirst(hits, hit, groups);
      FilterNone(hits, HasKey(group.key));
    } else if i == at {
      assert groups[i].results[0] == group.results[0];
    } else {
      KeysDiffer(groups, hits, i, at, KeyOf(hit));
      assert groups[i].results + [] == groups[i].results;
    }
  }

  lemma KeysDiffer(groups: seq<Group>, hits: seq<Hit>, i: nat, at: nat, key: string)
    requires Partitions(groups, hits) && i < |groups| && at == GroupAt(groups, key) && i != at
    ensures groups[i].key != key
  {
    if at < |groups| {
      assert FirstAt(hits, groups[i].key) != FirstAt(hits, groups[at].key);
    }
  }

  predicate KeyOccurs(hits: seq<Hit>, group: Group) {
    FirstAt(hits, group.key) < |hits|
  }

  lemma GroupKeyOccurs(hits: seq<Hit>, group: Group)
    requires group.results == Filter(hits, HasKey(group.key)) && group.results != []
    ensures KeyOccurs(hits, group)
  {
    if FirstAt(hits, group.key) == |hits| {
      FilterNone(hits, HasKey(group.key));
    }
  }

  lemma NewKeyIsFirst(hits: seq<Hit>, hit: Hit, groups: seq<Group>)
    requires Partitions(groups, hits) && GroupAt(groups, KeyOf(hit)) == |groups|
    ensures forall h | h in hits :: KeyOf(h) != KeyOf(hit)
    ensures FirstAt(hits, KeyOf(hit)) == |hits|
  {
    forall h | h in hits ensures KeyOf(h) != KeyOf(hit) {
      assert GroupAt(groups, KeyOf(h)) < |groups|;
    }
    forall i | 0 <= i < |hits| ensures KeyOf(hits[i]) != KeyOf(hit) {
      assert hits[i] in hits;
    }
  }

  // ------------------------------------------------- selectors

  predicate SearchRuns(s: State) {
    s.mode.Search? && |s.query| > 0 && (s.committed || |s.query| >= SEARCH_AUTO_COMMIT_LENGTH)
  }

  function SearchGroups(m: Model, s: State): seq<Group> {
    if SearchRuns(s) then GroupHits(m.search(s.query)) else []
  }

  /** `getSearchGroups`. */
  method GetSearchGroups(m: Model, s: State) returns (groups: seq<Group>)
    ensures groups == SearchGroups(m, s)
  {
    if !SearchRuns(s) {
      return [];
    }
    groups := GroupResults(m.search(s.query));
  }

  /** The element at an index, if there is one. */
  function At<T>(xs: seq<T>, i: int): Option<T> {
    if 0 <= i < |xs| then Some(xs[i]) else None
  }

  function TurnOf(): Hit -> Turn {
    (hit: Hit) => hit.turn
  }

  /** The turns that the browse scope lists for given selections. */
  function BrowseTurns(m: Model, scope: Scope, project: int, session: int): seq<Turn> {
    if scope.Sessions? then
      if At(m.sessions, session).Some? then m.sessions[session].turns else []
    else
      if At(m.projects, project).Some? then m.projects[project].turns else []
  }

  function VisibleTurns(m: Model, s: State): seq<Turn> {
    if s.mode.Search? then
      var groups := SearchGroups(m, s);
      if At(groups, s.group).Some? then Map(groups[s.group].results, TurnOf()) else []
    else BrowseTurns(m, s.scope, s.project, s.session)
  }

  function SelectedTurn(m: Model, s: State): Option<Turn> {
    At(VisibleTurns(m, s), if s.mode.Search? then s.hit else s.turn)
  }

  // ------------------------------------------------- clamping

  function ClampIndex(value: int, length: nat): int {
    if length == 0 then 0 else Max(0, Min(value, length - 1))
  }

  function HitsAt(groups: seq<Group>, group: int): nat {
    if At(groups, group).Some? then |groups[group].results| else 0
  }

  function Clamp(s: State, m: Model): State {
    var project, session := ClampIndex(s.project, |m.projects|), ClampIndex(s.session, |m.sessions|);
    var groups := SearchGroups(m, s);
    var group := ClampIndex(s.group, |groups|);
    s.(project := project, session := session,
       turn := ClampIndex(s.turn, |BrowseTurns(m, s.scope, project, session)|),
       group := group, hit := ClampIndex(s.hit, HitsAt(groups, group)))
  }

  predicate ValidOrZero(i: int, length: nat) {
    0 <= i < length || (i == 0 && length == 0)
  }

  /** Each of the five indices is one of its list, or 0 when its list is empty. */
  predicate InBounds(m: Model, s: State) {
    && ValidOrZero(s.project, |m.projects|)
    && ValidOrZero(s.session, |m.sessions|)
    && ValidOrZero(s.turn, |BrowseTurns(m, s.scope, s.project, s.session)|)
    && ValidOrZero(s.group, |SearchGroups(m, s)|)
    && ValidOrZero(s.hit, HitsAt(SearchGroups(m, s), s.group))
  }

  /** Clamping puts every state in bounds, and changes exactly those that are not. */
  lemma ClampIsRetraction(m: Model, s: State)
    ensures InBounds(m, Clamp(s, m))
    ensures InBounds(m, s) <==> Clamp(s, m) == s
  {
    assert SearchGroups(m, Clamp(s, m)) == SearchGroups(m, s);
  }

  function ClampScroll(s: State, limits: R.Limits): State {
    if !s.overlay.NoOverlay? then s.(overlayOffset := Min(s.overlayOffset, limits.overlay))
    else if s.focus.ConversationPane? then s.(conversationOffset := Min(s.conversationOffset, limits.conversation))
    else if s.focus.DetailPane? then s.(detailOffset := Min(s.detailOffset, limits.detail))
    else s
  }

  // ------------------------------------------------- movement

  function Shifted(offset: nat, delta: int, maximum: Option<nat>): nat {
    var limit := if maximum.Some? then maximum.value else MAX_SAFE_INTEGER;
    Min(limit, Max(0, Min(offset, limit) + delta))
  }

  /** The bound for what a key scrolls, when bounds are known. */
  function Bound(limits: Option<R.Limits>, of: R.Limits -> nat): Option<nat> {
    if limits.Some? then Some(of(limits.value)) else None
  }

  /** The movement keys scroll an overlay, the conversation and the detail pane, and select in the others. */
  predicate Scrolling(s: State) {
    !s.overlay.NoOverlay? || s.focus.ConversationPane? || s.focus.DetailPane?
  }

  /** The selection `delta` further, before it is clamped. */
  function Moved(s: State, delta: int): State {
    if s.focus.ProjectsPane? then
      if s.mode.Search? then s.(group := s.group + delta, hit := 0, detailOffset := 0)
      else if s.scope.Sessions? then s.(session := s.session + delta, turn := 0, detailOffset := 0)
      else s.(project := s.project + delta, turn := 0, detailOffset := 0)
    else if s.mode.Search? then s.(hit := s.hit + delta, detailOffset := 0, conversationOffset := 0)
    else s.(turn := s.turn + delta, detailOffset := 0, conversationOffset := 0)
  }

  function ScrolledBy(s: State, delta: int, limits: Option<R.Limits>): State {
    if !s.overlay.NoOverlay? then
      s.(overlayOffset := Shifted(s.overlayOffset, delta, Bound(limits, (l: R.Limits) => l.overlay)))
    else if s.focus.ConversationPane? then
      s.(conversationOffset := Shifted(s.conversationOffset, delta, Bound(limits, (l: R.Limits) => l.conversation)))
    else
      s.(detailOffset := Shifted(s.detailOffset, delta, Bound(limits, (l: R.Limits) => l.detail)))
  }

  function Move(m: Model, s: State, delta: int, limits: Option<R.Limits>): State {
    if Scrolling(s) then ScrolledBy(s, delta, limits) else Clamp(Moved(s, delta), m)
  }

  function End(limit: Option<nat>): nat {
    if limit.Some? then limit.value else MAX_SAFE_INTEGER
  }

  /** The selection at a given index, before it is clamped. */
  function Jumped(s: State, value: int): State {
    if s.focus.ProjectsPane? then
      if s.mode.Search? then s.(group := value, hit := 0, detailOffset := 0)
      else if s.scope.Sessions? then s.(session := value, turn := 0, detailOffset := 0)
      else s.(project := value, turn := 0, detailOffset := 0)
    else if s.mode.Search? then s.(hit := value, detailOffset := 0, conversationOffset := 0)
    else s.(turn := value, detailOffset := 0, conversationOffset := 0)
  }

  function ScrolledToEnd(s: State, first: bool, limits: Option<R.Limits>): State {
    if !s.overlay.NoOverlay? then
      s.(overlayOffset := if first then 0 else End(Bound(limits, (l: R.Limits) => l.overlay)))
    else if s.focus.ConversationPane? then
      s.(conversationOffset := if first then 0 else End(Bound(limits, (l: R.Limits) => l.conversation)))
    else
      s.(detailOffset := if first then 0 else End(Bound(limits, (l: R.Limits) => l.detail)))
  }

  function Jump(m: Model, s: State, first: bool, limits: Option<R.Limits>): State {
    if Scrolling(s) then ScrolledToEnd(s, first, limits)
    else Clamp(Jumped(s, if first then 0 else MAX_SAFE_INTEGER), m)
  }

  // ------------------------------------------------- search queries

  function ResetSearch(s: State): State {
    s.(group := 0, hit := 0, detailOffset := 0, conversationOffset := 0,
       status := if s.status.Some? && s.status.value.kind.Failure? then None else s.status)
  }

  function ApplyQuery(m: Model, s: State, query: Text, force: bool): State {
    Clamp(ResetSearch(s).(mode := Search, focus := R.ProjectsPane, overlay := NoOverlay, query := query,
                          committed := force || |query| >= SEARCH_AUTO_COMMIT_LENGTH), m)
  }

  /** A query without its last character, which takes two units when it is a surrogate pair. */
  function WithoutLast(query: Text): Text {
    if query == [] then []
    else if |query| >= 2 && IsLow(query[|query| - 1]) && IsHigh(query[|query| - 2]) then query[..|query| - 2]
    else query[..|query| - 1]
  }

  // ------------------------------------------------- opening what the command line names

  function WithFailure(s: State, text: string): State {
    s.(status := Some(Status(Failure, text)))
  }

  predicate Matches(m: Model, candidate: string, ref: string) {
    && candidate != ""
    && (m.lower(candidate) == m.lower(ref) || (|ref| >= 4 && m.lower(ref) <= m.lower(candidate)))
  }

  /** The first index with a property, or -1. */
  function FindIndex<T>(xs: seq<T>, p: T -> bool): (at: int)
    ensures -1 <= at < |xs| && (at >= 0 ==> p(xs[at]))
    ensures forall i | 0 <= i < (if at >= 0 then at else |xs|) :: !p(xs[i])
  {
    if xs == [] then -1
    else if p(xs[0]) then 0
    else
      var rest := FindIndex(xs[1..], p);
      assert forall i | 1 <= i < |xs| :: xs[1..][i - 1] == xs[i];
      if rest < 0 then -1 else rest + 1
  }

  function ProjectIndex(m: Model, ref: string): int {
    var found := m.getProject(ref);
    if found.Some? then FindIndex(m.projects, (p: Project) => p.key == found.value)
    else FindIndex(m.projects, (p: Project) => Matches(m, p.key, ref) || Matches(m, p.displayName, ref))
  }

  function OpenProjectRef(m: Model, s: State, ref: string): State {
    var index := ProjectIndex(m, ref);
    if index < 0 then WithFailure(s, "Project not found: " + ref + ".")
    else Clamp(s.(mode := Browse, focus := R.TurnsPane, project := index, turn := 0, detailOffset := 0), m)
  }

  function SessionIndex(m: Model, id: string): int {
    FindIndex(m.sessions, (x: Session) => x.id == id)
  }

  function OpenSessionRef(m: Model, s: State, ref: string): State {
    var found := m.getSession(ref);
    if found.None? then WithFailure(s, "Session not found: " + ref + ".")
    else
      var index := SessionIndex(m, found.value);
      if index < 0 then WithFailure(s, "Session is not in this snapshot: " + ref + ".")
      else
        Clamp(s.(mode := Browse, scope := Sessions,
                 focus := if |m.sessions[index].turns| > 0 then R.TurnsPane else R.DetailPane,
                 session := index, turn := 0, detailOffset := 0, conversationOffset := 0), m)
  }

  function IsTurn(id: string): Turn -> bool {
    (t: Turn) => t.id == id
  }

  /** The first project that lists a turn; the number of projects when none does. */
  function ProjectListing(projects: seq<Project>, id: string): (at: nat)
    ensures at <= |projects|
    ensures at < |projects| ==> FindIndex(projects[at].turns, IsTurn(id)) >= 0
    ensures forall i | 0 <= i < at :: FindIndex(projects[i].turns, IsTurn(id)) < 0
  {
    if projects == [] || FindIndex(projects[0].turns, IsTurn(id)) >= 0 then 0
    else 1 + ProjectListing(projects[1..], id)
  }

  function FocusedTurn(m: Model, s: State, id: string, focus: R.Focus): State {
    var at := ProjectListing(m.projects, id);
    if at == |m.projects| then WithFailure(s, "UserTurn is not reachable from any project: " + id + ".")
    else
      Clamp(s.(mode := Browse, focus := focus, project := at, turn := FindIndex(m.projects[at].turns, IsTurn(id)),
               detailOffset := 0, conversationOffset := 0), m)
  }

  /** `focusTurn`: the loop over the projects. */
  method FocusTurn(m: Model, s: State, id: string, focus: R.Focus) returns (after: State)
    ensures after == FocusedTurn(m, s, id, focus)
  {
    var projectIndex := 0;
    while projectIndex < |m.projects|
      invariant 0 <= projectIndex <= |m.projects|
      invariant forall i | 0 <= i < projectIndex :: FindIndex(m.projects[i].turns, IsTurn(id)) < 0
    {
      var turnIndex := FindIndex(m.projects[projectIndex].turns, IsTurn(id));
      if turnIndex >= 0 {
        return Clamp(s.(mode := Browse, focus := focus, project := projectIndex, turn := turnIndex,
                        detailOffset := 0, conversationOffset := 0), m);
      }
      projectIndex := projectIndex + 1;
    }
    after := WithFailure(s, "UserTurn is not reachable from any project: " + id + ".");
  }

  function OpenTurnRef(m: Model, s: State, ref: string): State {
    var found := m.getTurn(ref);
    if found.None? then WithFailure(s, "UserTurn not found: " + ref + ".")
    else FocusedTurn(m, s, found.value, R.DetailPane)
  }

  // ------------------------------------------------- the reducer

  function Toggled(s: State, overlay: Overlay): State {
    s.(overlay := if s.overlay == overlay then NoOverlay else overlay, overlayOffset := 0)
  }

  const FOCUS_ORDER := [R.ProjectsPane, R.TurnsPane, R.DetailPane]

  function FocusIndex(focus: R.Focus): nat
    requires !focus.ConversationPane?
  {
    if focus.ProjectsPane? then 0 else if focus.TurnsPane? then 1 else 2
  }

  function Cycled(s: State, delta: nat): State {
    if s.focus.ConversationPane? then s
    else s.(focus := FOCUS_ORDER[(FocusIndex(s.focus) + delta) % |FOCUS_ORDER|])
  }

  function NextDimension(d: Dimension): Dimension {
    match d
    case BySource => ByProject
    case ByProject => ByModel
    case ByModel => ByDay
    case ByDay => BySource
  }

  const START := State(Browse, Projects, R.ProjectsPane, NoOverlay, BySource, 0, 0, 0, 0, 0, [], false, 0, 0, 0, None)

  function Create(m: Model): State {
    Clamp(START, m)
  }

  function Drilled(s: State): State {
    if !s.overlay.NoOverlay? then s
    else match s.focus
      case ProjectsPane => s.(focus := R.TurnsPane)
      case TurnsPane => s.(focus := R.DetailPane, detailOffset := 0)
      case DetailPane => s.(focus := R.ConversationPane, conversationOffset := 0)
      case ConversationPane => s
  }

  function Retreated(m: Model, s: State): State {
    if !s.overlay.NoOverlay? then s.(overlay := NoOverlay, overlayOffset := 0)
    else match s.focus
      case ConversationPane => s.(focus := R.DetailPane)
      case DetailPane => s.(focus := R.TurnsPane)
      case TurnsPane => s.(focus := R.ProjectsPane)
      case ProjectsPane => if s.mode.Search? then Clamp(s.(mode := Browse, focus := R.ProjectsPane), m) else s
  }

  function Reduce(m: Model, s: State, action: Action, limits: Option<R.Limits>): State {
    match action
    case FocusNext => Cycled(s, 1)
    case FocusPrevious => Cycled(s, |FOCUS_ORDER| - 1)
    case FocusProjects => s.(focus := R.ProjectsPane)
    case FocusTurns => s.(focus := R.TurnsPane)
    case FocusDetail => s.(focus := if s.focus.ConversationPane? then R.ConversationPane else R.DetailPane)
    case SetScope(scope) =>
      if s.scope == scope && s.mode.Browse? then s.(focus := R.ProjectsPane)
      else
        Clamp(s.(mode := Browse, scope := scope, focus := R.ProjectsPane, overlay := NoOverlay, turn := 0,
                 detailOffset := 0, conversationOffset := 0), m)
    case MoveUp => Move(m, s, -1, limits)
    case MoveDown => Move(m, s, 1, limits)
    case PageUp => Move(m, s, -PAGE_STEP, limits)
    case PageDown => Move(m, s, PAGE_STEP, limits)
    case JumpFirst => Jump(m, s, true, limits)
    case JumpLast => Jump(m, s, false, limits)
    case Drill => Drilled(s)
    case Retreat => Retreated(m, s)
    case EnterSearch =>
      Clamp(ResetSearch(s).(mode := Search, focus := R.ProjectsPane, overlay := NoOverlay, committed := false), m)
    case ExitSearch => Clamp(s.(mode := Browse, focus := R.ProjectsPane), m)
    case CommitSearch => Clamp(ResetSearch(s).(committed := true), m)
    case Append(text) => ApplyQuery(m, s, s.query + text, false)
    case Backspace => ApplyQuery(m, s, WithoutLast(s.query), false)
    case OpenSearch(query) => ApplyQuery(m, s.(mode := Search, focus := R.ProjectsPane), query, true)
    case ToggleHelp => Toggled(s, Help)
    case ToggleStats => Toggled(s, Stats)
    case ToggleSources => Toggled(s, Sources)
    case CloseOverlay => s.(overlay := NoOverlay, overlayOffset := 0)
    case CycleDimension => s.(dimension := NextDimension(s.dimension), overlayOffset := 0)
    case SetStatus(status) => s.(status := Some(status))
    case ClearStatus => s.(status := None)
    case OpenProject(ref) => OpenProjectRef(m, s, ref)
    case OpenSession(ref) => OpenSessionRef(m, s, ref)
    case OpenTurn(ref) => OpenTurnRef(m, s, ref)
  }

  // ------------------------------------------------- what every action keeps

  /** Whether two states list the same things, so that bounds carry over from one to the other. */
  predicate ListsAlike(s: State, t: State) {
    && s.mode == t.mode && s.scope == t.scope && s.query == t.query && s.committed == t.committed
    && s.project == t.project && s.session == t.session && s.turn == t.turn && s.group == t.group && s.hit == t.hit
  }

  lemma BoundsCarryOver(m: Model, s: State, t: State)
    requires InBounds(m, s) && ListsAlike(s, t)
    ensures InBounds(m, t)
  {
    assert SearchGroups(m, s) == SearchGroups(m, t);
  }

  lemma MoveKeepsBounds(m: Model, s: State, delta: int, limits: Option<R.Limits>)
    requires InBounds(m, s)
    ensures InBounds(m, Move(m, s, delta, limits))
  {
    if Scrolling(s) {
      BoundsCarryOver(m, s, ScrolledBy(s, delta, limits));
    } else {
      ClampIsRetraction(m, Moved(s, delta));
    }
  }

  lemma JumpKeepsBounds(m: Model, s: State, first: bool, limits: Option<R.Limits>)
    requires InBounds(m, s)
    ensures InBounds(m, Jump(m, s, first, limits))
  {
    if Scrolling(s) {
      BoundsCarryOver(m, s, ScrolledToEnd(s, first, limits));
    } else {
      ClampIsRetraction(m, Jumped(s, if first then 0 else MAX_SAFE_INTEGER));
    }
  }

  lemma QueryKeepsBounds(m: Model, s: State, query: Text, force: bool)
    ensures InBounds(m, ApplyQuery(m, s, query, force))
  {
    ClampIsRetraction(m, ResetSearch(s).(mode := Search, focus := R.ProjectsPane, overlay := NoOverlay, query := query,
                                         committed := force || |query| >= SEARCH_AUTO_COMMIT_LENGTH));
  }

  lemma OpeningKeepsBounds(m: Model, s: State, ref: string)
    requires InBounds(m, s)
    ensures InBounds(m, OpenProjectRef(m, s, ref))
    ensures InBounds(m, OpenSessionRef(m, s, ref))
    ensures InBounds(m, OpenTurnRef(m, s, ref))
  {
    OpenProjectKeepsBounds(m, s, ref);
    OpenSessionKeepsBounds(m, s, ref);
    OpenTurnKeepsBounds(m, s, ref);
  }

  lemma FailureKeepsBounds(m: Model, s: State, text: string)
    requires InBounds(m, s)
    ensures InBounds(m, WithFailure(s, text))
  {
    BoundsCarryOver(m, s, WithFailure(s, text));
  }

  lemma OpenProjectKeepsBounds(m: Model, s: State, ref: string)
    requires InBounds(m, s)
    ensures InBounds(m, OpenProjectRef(m, s, ref))
  {
    var index := ProjectIndex(m, ref);
    FailureKeepsBounds(m, s, "Project not found: " + ref + ".");
    ClampIsRetraction(m, s.(mode := Browse, focus := R.TurnsPane, project := index, turn := 0, detailOffset := 0));
  }

  lemma OpenSessionKeepsBounds(m: Model, s: State, ref: string)
    requires InBounds(m, s)
    ensures InBounds(m, OpenSessionRef(m, s, ref))
  {
    FailureKeepsBounds(m, s, "Session not found: " + ref + ".");
    FailureKeepsBounds(m, s, "Session is not in this snapshot: " + ref + ".");
    var found := m.getSession(ref);
    if found.Some? && SessionIndex(m, found.value) >= 0 {
      var index := SessionIndex(m, found.value);
      ClampIsRetraction(m, s.(mode := Browse, scope := Sessions,
                              focus := if |m.sessions[index].turns| > 0 then R.TurnsPane else R.DetailPane,
                              session := index, turn := 0, detailOffset := 0, conversationOffset := 0));
    }
  }

  lemma OpenTurnKeepsBounds(m: Model, s: State, ref: string)
    requires InBounds(m, s)
    ensures InBounds(m, OpenTurnRef(m, s, ref))
  {
    FailureKeepsBounds(m, s, "UserTurn not found: " + ref + ".");
    var found := m.getTurn(ref);
    if found.Some? {
      FailureKeepsBounds(m, s, "UserTurn is not reachable from any project: " + found.value + ".");
      var at := ProjectListing(m.projects, found.value);
      if at < |m.projects| {
        ClampIsRetraction(m, s.(mode := Browse, focus := R.DetailPane, project := at,
                                turn := FindIndex(m.projects[at].turns, IsTurn(found.value)),
                                detailOffset := 0, conversationOffset := 0));
      }
    }
  }

  /** Every action keeps the selections in bounds. */
  lemma ReduceKeepsBounds(m: Model, s: State, action: Action, limits: Option<R.Limits>)
    requires InBounds(m, s)
    ensures InBounds(m, Reduce(m, s, action, limits))
  {
    match action
    case MoveUp => MoveKeepsBounds(m, s, -1, limits);
    case MoveDown => MoveKeepsBounds(m, s, 1, limits);
    case PageUp => MoveKeepsBounds(m, s, -PAGE_STEP, limits);
    case PageDown => MoveKeepsBounds(m, s, PAGE_STEP, limits);
    case JumpFirst => JumpKeepsBounds(m, s, true, limits);
    case JumpLast => JumpKeepsBounds(m, s, false, limits);
    case Append(text) => QueryKeepsBounds(m, s, s.query + text, false);
    case Backspace => QueryKeepsBounds(m, s, WithoutLast(s.query), false);
    case OpenSearch(query) => QueryKeepsBounds(m, s.(mode := Search, focus := R.ProjectsPane), query, true);
    case OpenProject(ref) => OpeningKeepsBounds(m, s, ref);
    case OpenSession(ref) => OpeningKeepsBounds(m, s, ref);
    case OpenTurn(ref) => OpeningKeepsBounds(m, s, ref);
    case SetScope(scope) => ScopeKeepsBounds(m, s, scope, limits);
    case Retreat => RetreatKeepsBounds(m, s);
    case EnterSearch =>
      ClampIsRetraction(m, ResetSearch(s).(mode := Search, focus := R.ProjectsPane, overlay := NoOverlay,
                                           committed := false));
    case ExitSearch => ClampIsRetraction(m, s.(mode := Browse, focus := R.ProjectsPane));
    case CommitSearch => ClampIsRetraction(m, ResetSearch(s).(committed := true));
    case _ =>
      PlainActionListsAlike(m, s, action, limits);
      BoundsCarryOver(m, s, Reduce(m, s, action, limits));
  }

  /** The actions that only move the focus, the overlay, the statistics or the message. */
  predicate Plain(action: Action) {
    || action.FocusNext? || action.FocusPrevious? || action.FocusProjects? || action.FocusTurns? || action.FocusDetail?
    || action.Drill? || action.ToggleHelp? || action.ToggleStats? || action.ToggleSources? || action.CloseOverlay?
    || action.CycleDimension? || action.SetStatus? || action.ClearStatus?
  }

  lemma PlainActionListsAlike(m: Model, s: State, action: Action, limits: Option<R.Limits>)
    requires Plain(action)
    ensures ListsAlike(s, Reduce(m, s, action, limits))
  {}

  lemma ScopeKeepsBounds(m: Model, s: State, scope: Scope, limits: Option<R.Limits>)
    requires InBounds(m, s)
    ensures InBounds(m, Reduce(m, s, SetScope(scope), limits))
  {
    if s.scope == scope && s.mode.Browse? {
      BoundsCarryOver(m, s, s.(focus := R.ProjectsPane));
    } else {
      ClampIsRetraction(m, s.(mode := Browse, scope := scope, focus := R.ProjectsPane, overlay := NoOverlay, turn := 0,
                              detailOffset := 0, conversationOffset := 0));
    }
  }

  lemma RetreatKeepsBounds(m: Model, s: State)
    requires InBounds(m, s)
    ensures InBounds(m, Retreated(m, s))
  {
    if s.overlay.NoOverlay? && s.focus.ProjectsPane? && s.mode.Search? {
      ClampIsRetraction(m, s.(mode := Browse, focus := R.ProjectsPane));
    } else {
      BoundsCarryOver(m, s, Retreated(m, s));
    }
  }

  // ------------------------------------------------- what movement means

  /** The selection that the movement keys move. */
  function Cursor(s: State): int {
    if s.focus.ProjectsPane? then
      if s.mode.Search? then s.group else if s.scope.Sessions? then s.session else s.project
    else if s.mode.Search? then s.hit
    else s.turn
  }

  /** The number of things that it selects from. */
  function CursorLength(m: Model, s: State): nat {
    if s.focus.ProjectsPane? then
      if s.mode.Search? then |SearchGroups(m, s)|
      else if s.scope.Sessions? then |m.sessions|
      else |m.projects|
    else |VisibleTurns(m, s)|
  }

  /** The offset that the movement keys scroll, and its bound. */
  function ScrollOffset(s: State): nat {
    if !s.overlay.NoOverlay? then s.overlayOffset
    else if s.focus.ConversationPane? then s.conversationOffset
    else s.detailOffset
  }

  function ScrollBound(s: State, limits: R.Limits): nat {
    if !s.overlay.NoOverlay? then limits.overlay
    else if s.focus.ConversationPane? then limits.conversation
    else limits.detail
  }

  /** The index in a list of `n` that is nearest to `i`. */
  function Nearest(i: int, n: nat): int
    requires n > 0
  {
    if i < 0 then 0 else if i >= n then n - 1 else i
  }

  /** What moving leaves alone: where the keys go, and the list that they select from. */
  predicate SameList(m: Model, s: State, t: State) {
    && t.focus == s.focus && t.overlay == s.overlay && t.mode == s.mode && t.scope == s.scope && t.query == s.query
    && CursorLength(m, t) == CursorLength(m, s)
  }

  lemma LeftCursorMoves(m: Model, s: State, delta: int, limits: Option<R.Limits>)
    requires InBounds(m, s) && !Scrolling(s) && s.focus.ProjectsPane? && CursorLength(m, s) > 0
    ensures Cursor(Move(m, s, delta, limits)) == Nearest(Cursor(s) + delta, CursorLength(m, s))
    ensures SameList(m, s, Move(m, s, delta, limits))
  {
    assert SearchGroups(m, Moved(s, delta)) == SearchGroups(m, s);
    assert SearchGroups(m, Move(m, s, delta, limits)) == SearchGroups(m, s);
  }

  lemma TurnCursorMoves(m: Model, s: State, delta: int, limits: Option<R.Limits>)
    requires InBounds(m, s) && !Scrolling(s) && s.focus.TurnsPane? && CursorLength(m, s) > 0
    ensures Cursor(Move(m, s, delta, limits)) == Nearest(Cursor(s) + delta, CursorLength(m, s))
    ensures SameList(m, s, Move(m, s, delta, limits))
  {
    var t := Moved(s, delta);
    assert SearchGroups(m, t) == SearchGroups(m, s);
    TurnsOfMoved(m, s, t);
    TurnsOfMoved(m, s, Clamp(t, m));
  }

  /** The turns listed depend on what is selected to the left of them only. */
  lemma TurnsOfMoved(m: Model, s: State, t: State)
    requires t.mode == s.mode && t.scope == s.scope && t.query == s.query && t.committed == s.committed
    requires t.project == s.project && t.session == s.session && t.group == s.group
    ensures VisibleTurns(m, t) == VisibleTurns(m, s)
  {
    assert SearchGroups(m, t) == SearchGroups(m, s);
  }

  lemma CursorMoves(m: Model, s: State, delta: int, limits: Option<R.Limits>)
    requires InBounds(m, s) && !Scrolling(s) && CursorLength(m, s) > 0
    ensures Cursor(Move(m, s, delta, limits)) == Nearest(Cursor(s) + delta, CursorLength(m, s))
    ensures SameList(m, s, Move(m, s, delta, limits))
  {
    if s.focus.ProjectsPane? {
      LeftCursorMoves(m, s, delta, limits);
    } else {
      TurnCursorMoves(m, s, delta, limits);
    }
  }

  lemma CursorJumps(m: Model, s: State, first: bool, limits: Option<R.Limits>)
    requires InBounds(m, s) && !Scrolling(s) && 0 < CursorLength(m, s) <= MAX_SAFE_INTEGER
    ensures Cursor(Jump(m, s, first, limits)) == if first then 0 else CursorLength(m, s) - 1
  {
    assert SearchGroups(m, Jumped(s, if first then 0 else MAX_SAFE_INTEGER)) == SearchGroups(m, s);
  }

  /** How far an action moves. */
  function DeltaOf(action: Action): int {
    match action
    case MoveUp => -1
    case MoveDown => 1
    case PageUp => -15
    case PageDown => 15
    case _ => 0
  }

  /** In a list, whichever it is, the arrow and page keys select the one that is one or fifteen further up or
      down, or the first or the last when there is none; and the jump keys select the first and the last. */
  lemma MovementSelects(m: Model, s: State, action: Action, limits: Option<R.Limits>)
    requires InBounds(m, s) && !Scrolling(s) && 0 < CursorLength(m, s) <= MAX_SAFE_INTEGER && Moves(action)
    ensures Cursor(Reduce(m, s, action, limits))
         == if action.JumpFirst? then 0
            else if action.JumpLast? then CursorLength(m, s) - 1
            else Nearest(Cursor(s) + DeltaOf(action), CursorLength(m, s))
  {
    match action
    case MoveUp => CursorMoves(m, s, -1, limits);
    case MoveDown => CursorMoves(m, s, 1, limits);
    case PageUp => CursorMoves(m, s, -PAGE_STEP, limits);
    case PageDown => CursorMoves(m, s, PAGE_STEP, limits);
    case JumpFirst => CursorJumps(m, s, true, limits);
    case JumpLast => CursorJumps(m, s, false, limits);
  }

  /** In a pane that scrolls, the same keys scroll by as much, and stay within the bound that is known. */
  lemma MovementScrolls(m: Model, s: State, action: Action, limits: R.Limits)
    requires Scrolling(s) && ScrollOffset(s) <= ScrollBound(s, limits) && Moves(action)
    ensures ScrollOffset(Reduce(m, s, action, Some(limits)))
         == if action.JumpFirst? then 0
            else if action.JumpLast? then ScrollBound(s, limits)
            else Nearest(ScrollOffset(s) + DeltaOf(action), ScrollBound(s, limits) + 1)
  {}

  // ------------------------------------------------- movement undone

  /** Moving back undoes a move exactly when the move was not cut short, or started where the way back is. */
  lemma MoveUndoneIff(m: Model, s: State, delta: int, limits: Option<R.Limits>)
    requires InBounds(m, s) && !Scrolling(s) && s.focus.TurnsPane? && s.mode.Browse? && VisibleTurns(m, s) != []
    ensures var n := |VisibleTurns(m, s)|;
            (Move(m, Move(m, s, delta, limits), -delta, limits).turn == s.turn)
              <==> (0 <= s.turn + delta < n || (delta > 0 && s.turn == 0) || (delta < 0 && s.turn == n - 1))
  {
    var n := |VisibleTurns(m, s)|;
    TurnAfterMove(m, s, delta, limits);
    var t := Move(m, s, delta, limits);
    MoveKeepsBounds(m, s, delta, limits);
    TurnAfterMove(m, t, -delta, limits);
  }

  lemma TurnAfterMove(m: Model, s: State, delta: int, limits: Option<R.Limits>)
    requires InBounds(m, s) && !Scrolling(s) && s.focus.TurnsPane? && s.mode.Browse?
    ensures var t := Move(m, s, delta, limits);
            && t.turn == ClampIndex(s.turn + delta, |VisibleTurns(m, s)|)
            && VisibleTurns(m, t) == VisibleTurns(m, s)
            && t.focus == s.focus && t.mode == s.mode && t.overlay == s.overlay
  {}

  /** Retreating undoes drilling exactly when there is something to drill into and the pane drilled into was
      not scrolled. */
  lemma RetreatUndoesDrillIff(m: Model, s: State)
    ensures Retreated(m, Drilled(s)) == s
       <==> && s.overlay.NoOverlay?
            && (s.focus.ProjectsPane? || (s.focus.TurnsPane? && s.detailOffset == 0)
                || (s.focus.DetailPane? && s.conversationOffset == 0))
  {}

  predicate Moves(action: Action) {
    || action.MoveUp? || action.MoveDown? || action.PageUp? || action.PageDown? || action.JumpFirst? || action.JumpLast?
  }

  predicate Queries(action: Action) {
    action.Append? || action.Backspace? || action.OpenSearch?
  }

  lemma MovesKeepFocus(m: Model, s: State, action: Action, limits: Option<R.Limits>)
    requires Moves(action)
    ensures Reduce(m, s, action, limits).focus == s.focus
  {
    match action
    case MoveUp => MoveKeepsFocus(m, s, -1, limits);
    case MoveDown => MoveKeepsFocus(m, s, 1, limits);
    case PageUp => MoveKeepsFocus(m, s, -PAGE_STEP, limits);
    case PageDown => MoveKeepsFocus(m, s, PAGE_STEP, limits);
    case JumpFirst => JumpKeepsFocus(m, s, true, limits);
    case JumpLast => JumpKeepsFocus(m, s, false, limits);
  }

  lemma MoveKeepsFocus(m: Model, s: State, delta: int, limits: Option<R.Limits>)
    ensures Move(m, s, delta, limits).focus == s.focus
  {}

  lemma JumpKeepsFocus(m: Model, s: State, first: bool, limits: Option<R.Limits>)
    ensures Jump(m, s, first, limits).focus == s.focus
  {}

  lemma QueriesFocusProjects(m: Model, s: State, action: Action, limits: Option<R.Limits>)
    requires Queries(action)
    ensures Reduce(m, s, action, limits).focus.ProjectsPane?
  {}

  lemma OpeningIsNoConversation(m: Model, s: State, ref: string)
    requires !s.focus.ConversationPane?
    ensures !OpenProjectRef(m, s, ref).focus.ConversationPane?
    ensures !OpenSessionRef(m, s, ref).focus.ConversationPane?
  {}

  lemma OpenTurnIsNoConversation(m: Model, s: State, ref: string)
    requires !s.focus.ConversationPane?
    ensures !OpenTurnRef(m, s, ref).focus.ConversationPane?
  {}

  /** The one action that opens the conversation. */
  lemma OnlyDrillOpensConversation(m: Model, s: State, action: Action, limits: Option<R.Limits>)
    requires !s.focus.ConversationPane?
    ensures Reduce(m, s, action, limits).focus.ConversationPane?
       <==> action.Drill? && s.overlay.NoOverlay? && s.focus.DetailPane?
  {
    if Moves(action) {
      MovesKeepFocus(m, s, action, limits);
    } else if Queries(action) {
      QueriesFocusProjects(m, s, action, limits);
    } else if action.OpenTurn? {
      OpenTurnIsNoConversation(m, s, action.ref);
    } else if action.OpenProject? || action.OpenSession? {
      OpeningIsNoConversation(m, s, action.ref);
    } else if Plain(action) {
      PlainOpensConversation(m, s, action, limits);
    }
  }

  lemma PlainOpensConversation(m: Model, s: State, action: Action, limits: Option<R.Limits>)
    requires !s.focus.ConversationPane? && Plain(action)
    ensures Reduce(m, s, action, limits).focus.ConversationPane?
       <==> action.Drill? && s.overlay.NoOverlay? && s.focus.DetailPane?
  {}

  // ------------------------------------------------- searching

  /** The actions that change what is selected for browsing whatever the mode. */
  predicate Reselects(action: Action) {
    action.SetScope? || action.OpenProject? || action.OpenSession? || action.OpenTurn?
  }

  predicate BrowsesAlike(s: State, t: State) {
    s.scope == t.scope && s.project == t.project && s.session == t.session && s.turn == t.turn
  }

  lemma ClampBrowsesAlike(m: Model, s: State, t: State)
    requires InBounds(m, s) && BrowsesAlike(s, t)
    ensures BrowsesAlike(s, Clamp(t, m))
  {}

  lemma MovesBrowseAlike(m: Model, s: State, action: Action, limits: Option<R.Limits>)
    requires InBounds(m, s) && s.mode.Search? && Moves(action)
    ensures BrowsesAlike(s, Reduce(m, s, action, limits))
  {
    match action
    case MoveUp => MoveBrowsesAlike(m, s, -1, limits);
    case MoveDown => MoveBrowsesAlike(m, s, 1, limits);
    case PageUp => MoveBrowsesAlike(m, s, -PAGE_STEP, limits);
    case PageDown => MoveBrowsesAlike(m, s, PAGE_STEP, limits);
    case JumpFirst => JumpBrowsesAlike(m, s, true, limits);
    case JumpLast => JumpBrowsesAlike(m, s, false, limits);
  }

  lemma MoveBrowsesAlike(m: Model, s: State, delta: int, limits: Option<R.Limits>)
    requires InBounds(m, s) && s.mode.Search?
    ensures BrowsesAlike(s, Move(m, s, delta, limits))
  {
    if !Scrolling(s) {
      ClampBrowsesAlike(m, s, Moved(s, delta));
    }
  }

  lemma JumpBrowsesAlike(m: Model, s: State, first: bool, limits: Option<R.Limits>)
    requires InBounds(m, s) && s.mode.Search?
    ensures BrowsesAlike(s, Jump(m, s, first, limits))
  {
    if !Scrolling(s) {
      ClampBrowsesAlike(m, s, Jumped(s, if first then 0 else MAX_SAFE_INTEGER));
    }
  }

  lemma QueriesBrowseAlike(m: Model, s: State, action: Action, limits: Option<R.Limits>)
    requires InBounds(m, s) && s.mode.Search? && Queries(action)
    ensures BrowsesAlike(s, Reduce(m, s, action, limits))
  {
    match action
    case Append(text) => QueryBrowsesAlike(m, s, s.query + text, false);
    case Backspace => QueryBrowsesAlike(m, s, WithoutLast(s.query), false);
    case OpenSearch(query) => OpeningSearchBrowsesAlike(m, s, query);
  }

  lemma OpeningSearchBrowsesAlike(m: Model, s: State, query: Text)
    requires InBounds(m, s)
    ensures BrowsesAlike(s, ApplyQuery(m, s.(mode := Search, focus := R.ProjectsPane), query, true))
  {
    ClampBrowsesAlike(m, s,
                      ResetSearch(s).(mode := Search, focus := R.ProjectsPane, overlay := NoOverlay, query := query,
                                            committed := true));
  }

  lemma EnteringBrowsesAlike(m: Model, s: State, limits: Option<R.Limits>)
    requires InBounds(m, s)
    ensures BrowsesAlike(s, Reduce(m, s, EnterSearch, limits))
  {
    ClampBrowsesAlike(m, s, ResetSearch(s).(mode := Search, focus := R.ProjectsPane, overlay := NoOverlay,
                                            committed := false));
  }

  lemma ExitingBrowsesAlike(m: Model, s: State, limits: Option<R.Limits>)
    requires InBounds(m, s)
    ensures BrowsesAlike(s, Reduce(m, s, ExitSearch, limits))
  {
    ClampBrowsesAlike(m, s, s.(mode := Browse, focus := R.ProjectsPane));
  }

  lemma CommittingBrowsesAlike(m: Model, s: State, limits: Option<R.Limits>)
    requires InBounds(m, s)
    ensures BrowsesAlike(s, Reduce(m, s, CommitSearch, limits))
  {
    ClampBrowsesAlike(m, s, ResetSearch(s).(committed := true));
  }

  lemma RetreatBrowsesAlike(m: Model, s: State)
    requires InBounds(m, s)
    ensures BrowsesAlike(s, Retreated(m, s))
  {
    if s.overlay.NoOverlay? && s.focus.ProjectsPane? && s.mode.Search? {
      ClampBrowsesAlike(m, s, s.(mode := Browse, focus := R.ProjectsPane));
    }
  }

  /** In search mode, and on entering it, the browse selection stays. */
  lemma SearchKeepsSelection(m: Model, s: State, action: Action, limits: Option<R.Limits>)
    requires InBounds(m, s) && (s.mode.Search? || action.EnterSearch?) && !Reselects(action)
    ensures BrowsesAlike(s, Reduce(m, s, action, limits))
  {
    if Moves(action) {
      MovesBrowseAlike(m, s, action, limits);
    } else if Queries(action) {
      QueriesBrowseAlike(m, s, action, limits);
    } else if Plain(action) {
      PlainActionListsAlike(m, s, action, limits);
    } else if action.Retreat? {
      RetreatBrowsesAlike(m, s);
    } else if action.EnterSearch? {
      EnteringBrowsesAlike(m, s, limits);
    } else if action.ExitSearch? {
      ExitingBrowsesAlike(m, s, limits);
    } else {
      CommittingBrowsesAlike(m, s, limits);
    }
  }

  lemma QueryBrowsesAlike(m: Model, s: State, query: Text, force: bool)
    requires InBounds(m, s)
    ensures BrowsesAlike(s, ApplyQuery(m, s, query, force))
  {}

  /** Actions one after the other, each with the bounds of the frame before it. */
  function RunActions(m: Model, s: State, actions: seq<(Action, Option<R.Limits>)>): State
    decreases actions
  {
    if actions == [] then s else RunActions(m, Reduce(m, s, actions[0].0, actions[0].1), actions[1..])
  }

  /** A run that stays in search mode and reselects nothing. */
  predicate Searches(m: Model, s: State, actions: seq<(Action, Option<R.Limits>)>)
    decreases actions
  {
    && s.mode.Search?
    && (actions != [] ==>
          !Reselects(actions[0].0) && Searches(m, Reduce(m, s, actions[0].0, actions[0].1), actions[1..]))
  }

  lemma {:induction false} SearchRunKeepsSelection(m: Model, s: State, actions: seq<(Action, Option<R.Limits>)>)
    requires InBounds(m, s) && Searches(m, s, actions)
    ensures BrowsesAlike(s, RunActions(m, s, actions)) && InBounds(m, RunActions(m, s, actions))
    ensures RunActions(m, s, actions).mode.Search?
    decreases actions
  {
    if actions != [] {
      var t := Reduce(m, s, actions[0].0, actions[0].1);
      SearchKeepsSelection(m, s, actions[0].0, actions[0].1);
      ReduceKeepsBounds(m, s, actions[0].0, actions[0].1);
      SearchRunKeepsSelection(m, t, actions[1..]);
    }
  }

  /** A search, whatever is typed, opened and scrolled in it, leaves the browser where it was: after the Escape
      that ends it the same turns are listed and the same one is selected. */
  lemma SearchIsAnExcursion(m: Model, s: State, actions: seq<(Action, Option<R.Limits>)>, limits: Option<R.Limits>)
    requires InBounds(m, s) && s.mode.Browse?
    requires Searches(m, Reduce(m, s, EnterSearch, limits), actions)
    requires var there := RunActions(m, Reduce(m, s, EnterSearch, limits), actions);
             there.focus.ProjectsPane? && there.overlay.NoOverlay?
    ensures var back := Reduce(m, RunActions(m, Reduce(m, s, EnterSearch, limits), actions), Retreat, limits);
            back.mode.Browse? && VisibleTurns(m, back) == VisibleTurns(m, s)
              && SelectedTurn(m, back) == SelectedTurn(m, s)
  {
    var there := RunActions(m, Reduce(m, s, EnterSearch, limits), actions);
    ExcursionOut(m, s, actions, limits);
    RetreatBrowsesAlike(m, there);
    SelectedAlike(m, s, Retreated(m, there));
  }

  lemma ExcursionOut(m: Model, s: State, actions: seq<(Action, Option<R.Limits>)>, limits: Option<R.Limits>)
    requires InBounds(m, s) && Searches(m, Reduce(m, s, EnterSearch, limits), actions)
    ensures var there := RunActions(m, Reduce(m, s, EnterSearch, limits), actions);
            InBounds(m, there) && BrowsesAlike(s, there) && there.mode.Search?
  {
    EnteringBrowsesAlike(m, s, limits);
    ReduceKeepsBounds(m, s, EnterSearch, limits);
    SearchRunKeepsSelection(m, Reduce(m, s, EnterSearch, limits), actions);
  }

  lemma SelectedAlike(m: Model, s: State, t: State)
    requires BrowsesAlike(s, t) && s.mode.Browse? && t.mode.Browse?
    ensures VisibleTurns(m, t) == VisibleTurns(m, s) && SelectedTurn(m, t) == SelectedTurn(m, s)
  {}

  /** A query runs by itself from four units on, and a shorter one that is not empty when it is forced. */
  lemma QueryRunsIff(m: Model, s: State, query: Text, force: bool)
    ensures SearchRuns(ApplyQuery(m, s, query, force)) <==> |query| >= 4 || (force && query != [])
  {}

  /** Backspace takes back what one key press typed exactly when that was one character, and no half of a
      surrogate pair whose other half was there. */
  lemma BackspaceUndoesTypingIff(query: Text, text: Text)
    requires text != []
    ensures WithoutLast(query + text) == query
       <==> || (|text| == 1 && !(query != [] && IsHigh(query[|query| - 1]) && IsLow(text[0])))
            || (|text| == 2 && IsHigh(text[0]) && IsLow(text[1]))
  {
    var all := query + text;
    if |text| == 1 {
      assert all[..|all| - 1] == query;
    } else if |text| == 2 {
      assert all[..|all| - 2] == query;
    }
    assert |WithoutLast(all)| >= |all| - 2;
  }

  // ------------------------------------------------- what an opened reference selects

  /** Opening a project while projects are browsed shows its turns, with the first one selected. */
  lemma OpenProjectShows(m: Model, s: State, ref: string)
    requires s.scope.Projects? && ProjectIndex(m, ref) >= 0
    ensures var t, index := OpenProjectRef(m, s, ref), ProjectIndex(m, ref);
            && t.mode.Browse? && t.scope.Projects? && t.focus.TurnsPane? && t.project == index && t.status == s.status
            && VisibleTurns(m, t) == m.projects[index].turns
            && SelectedTurn(m, t) == At(m.projects[index].turns, 0)
  {}

  /** Opening a session that the snapshot lists always shows it, and selects its first turn if it has one. */
  lemma OpenSessionSelects(m: Model, s: State, ref: string)
    requires m.getSession(ref).Some? && SessionIndex(m, m.getSession(ref).value) >= 0
    ensures var t := OpenSessionRef(m, s, ref);
            && t.scope.Sessions? && t.mode.Browse? && 0 <= t.session < |m.sessions| && t.status == s.status
            && m.sessions[t.session].id == m.getSession(ref).value
            && VisibleTurns(m, t) == m.sessions[t.session].turns
            && SelectedTurn(m, t) == At(m.sessions[t.session].turns, 0)
            && t.focus == (if m.sessions[t.session].turns != [] then R.TurnsPane else R.DetailPane)
  {}

  /** Opening a turn while projects are browsed selects it, in the first project that lists it. */
  lemma OpenTurnSelects(m: Model, s: State, ref: string)
    requires s.scope.Projects?
    requires m.getTurn(ref).Some? && ProjectListing(m.projects, m.getTurn(ref).value) < |m.projects|
    ensures var t, id := OpenTurnRef(m, s, ref), m.getTurn(ref).value;
            && t.mode.Browse? && t.scope.Projects? && t.focus.DetailPane? && t.status == s.status
            && t.project == ProjectListing(m.projects, id)
            && SelectedTurn(m, t).Some? && SelectedTurn(m, t).value.id == id
  {}

  /** What opening says of a reference that leads nowhere; it changes nothing else. */
  lemma MissingProject(m: Model, s: State, ref: string)
    requires ProjectIndex(m, ref) < 0
    ensures var t := OpenProjectRef(m, s, ref);
            t.status.Some? && t.status.value.kind.Failure? && t == s.(status := t.status)
  {}

  lemma MissingSession(m: Model, s: State, ref: string)
    requires m.getSession(ref).None? || SessionIndex(m, m.getSession(ref).value) < 0
    ensures var t := OpenSessionRef(m, s, ref);
            t.status.Some? && t.status.value.kind.Failure? && t == s.(status := t.status)
  {}

  lemma MissingTurn(m: Model, s: State, ref: string)
    requires m.getTurn(ref).None? || ProjectListing(m.projects, m.getTurn(ref).value) == |m.projects|
    ensures var t := OpenTurnRef(m, s, ref);
            t.status.Some? && t.status.value.kind.Failure? && t == s.(status := t.status)
  {}
}
