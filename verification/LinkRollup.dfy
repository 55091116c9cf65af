/** Linking turns, and the counts per project. */
module LinkRollup {
  // Overrides, and the choice of a project for every turn, come before the counts.

  import opened Sequences
  import opened Sorting
  import opened LinkRules
  import opened Options
  import opened LinkGroups
  import opened LinkProjects

  datatype TargetKind = OnTurn | OnSession | OnObservation

  datatype Override = Override(kind: TargetKind, target: string, project: ProjectId)

  datatype LinkState = Linked(state: LinkageState) | Unlinked

  datatype Turn = Turn(id: string, session: string, lastActivity: int, project: Option<ProjectId>, linkState: LinkState)

  datatype Project = Project(id: ProjectId, state: LinkageState, confidence: int)

  /** JavaScript truthiness of an optional project id: a digest is never empty. */
  predicate HasProject(id: Option<ProjectId>) {
    id.Some? && id.value != Named("")
  }

  /** The value that a `Map` built from the overrides holds for a target: the last one wins. */
  function OverrideFor(overrides: seq<Override>, kind: TargetKind, target: string): Option<Override> {
    if overrides == [] then None
    else
      var last := overrides[|overrides| - 1];
      if last.kind == kind && last.target == target then Some(last)
      else OverrideFor(overrides[..|overrides| - 1], kind, target)
  }

  /** `overrideBy<kind>.get(ref) ?? overrideBySessionId.get(session)`. */
  function OverrideOf(overrides: seq<Override>, kind: TargetKind, target: string, session: string): Option<Override> {
    var direct := OverrideFor(overrides, kind, target);
    if direct.Some? then direct else OverrideFor(overrides, OnSession, session)
  }

  // ------------------------------------------------- the projects

  /** `projectById`: the groups' projects, then one for every other project an override names. */
  datatype ProjectTable = ProjectTable(order: seq<ProjectId>, byId: map<ProjectId, Project>)

  ghost predicate TableOk(table: ProjectTable) {
    NoDuplicates(table.order)
    && (forall id :: id in table.order <==> id in table.byId)
    && forall id | id in table.byId :: table.byId[id].id == id
  }

  function Put(table: ProjectTable, p: Project): ProjectTable {
    ProjectTable(if p.id in table.byId then table.order else table.order + [p.id], table.byId[p.id := p])
  }

  lemma PutKeepsTable(table: ProjectTable, p: Project)
    requires TableOk(table)
    ensures TableOk(Put(table, p)) && Put(table, p).byId.Keys == table.byId.Keys + {p.id}
  {
    var table' := Put(table, p);
    forall id ensures id in table'.order <==> id in table'.byId {
      assert id in table.order + [p.id] <==> id in table.order || id == p.id;
    }
  }

  method BuildProjects(groups: seq<Group>, overrides: seq<Override>) returns (table: ProjectTable)
    ensures TableOk(table)
    ensures table.byId.Keys == (set g | g in groups :: g.id) + (set o | o in overrides :: o.project)
    ensures forall id | id in table.byId && !exists g :: g in groups && g.id == id ::
      table.byId[id] == Project(id, Committed, 100)
    ensures DistinctIds(groups) ==>
      forall g | g in groups :: table.byId[g.id] == Project(g.id, g.state, g.confidence)
  {
    var fromGroups := ProjectsOfGroups(groups);
    table := AddOverridden(fromGroups, overrides);
  }

  method ProjectsOfGroups(groups: seq<Group>) returns (table: ProjectTable)
    ensures TableOk(table)
    ensures table.byId.Keys == set g | g in groups :: g.id
    ensures DistinctIds(groups) ==>
      forall g | g in groups :: table.byId[g.id] == Project(g.id, g.state, g.confidence)
  {
    table := ProjectTable([], map[]);
    for i := 0 to |groups|
      invariant TableOk(table)
      invariant table.byId.Keys == set j | 0 <= j < i :: groups[j].id
      invariant DistinctIds(groups) ==>
        forall j | 0 <= j < i ::
          table.byId[groups[j].id] == Project(groups[j].id, groups[j].state, groups[j].confidence)
    {
      PutKeepsTable(table, Project(groups[i].id, groups[i].state, groups[i].confidence));
      table := Put(table, Project(groups[i].id, groups[i].state, groups[i].confidence));
    }
  }

  /** The projects of the first `i` overrides are in the table, beside those from the groups. */
  ghost predicate Adding(table: ProjectTable, fromGroups: ProjectTable, overrides: seq<Override>, i: nat) {
    && i <= |overrides| && TableOk(table) && Extends(table, fromGroups)
    && table.byId.Keys == fromGroups.byId.Keys + set j | 0 <= j < i :: overrides[j].project
  }

  lemma AddingNext(table: ProjectTable, fromGroups: ProjectTable, overrides: seq<Override>, i: nat)
    requires i < |overrides| && Adding(table, fromGroups, overrides, i)
    ensures overrides[i].project in table.byId ==> Adding(table, fromGroups, overrides, i + 1)
    ensures overrides[i].project !in table.byId ==>
      Adding(Put(table, Project(overrides[i].project, Committed, 100)), fromGroups, overrides, i + 1)
  {
    var p := Project(overrides[i].project, Committed, 100);
    PutKeepsTable(table, p);
    assert (set j | 0 <= j < i + 1 :: overrides[j].project) == (set j | 0 <= j < i :: overrides[j].project) + {p.id};
  }

  method AddOverridden(fromGroups: ProjectTable, overrides: seq<Override>) returns (table: ProjectTable)
    requires TableOk(fromGroups)
    ensures TableOk(table) && Extends(table, fromGroups)
    ensures table.byId.Keys == fromGroups.byId.Keys + set o | o in overrides :: o.project
  {
    table := fromGroups;
    for i := 0 to |overrides|
      invariant Adding(table, fromGroups, overrides, i)
    {
      AddingNext(table, fromGroups, overrides, i);
      if overrides[i].project !in table.byId {
        table := Put(table, Project(overrides[i].project, Committed, 100));
      }
    }
    assert (set j | 0 <= j < |overrides| :: overrides[j].project) == set o | o in overrides :: o.project;
  }

  /** A table with the same projects as before, and beside them manual ones. */
  ghost predicate Extends(table: ProjectTable, before: ProjectTable) {
    && (forall id | id in before.byId :: id in table.byId && table.byId[id] == before.byId[id])
    && (forall id | id in table.byId && id !in before.byId :: table.byId[id] == Project(id, Committed, 100))
  }

  /** An observation override (or else a session override) replaces the observation's project. */
  function Overridden(overrides: seq<Override>, o: LinkedObservation): LinkedObservation {
    match OverrideOf(overrides, OnObservation, o.observation.id, o.observation.session)
    case None => o
    case Some(ov) => o.(project := Some(ov.project), state := Some(Committed), reason := Some(ManualOverride))
  }

  // ------------------------------------------------- choosing an observation

  function EarlierFirst(): (LinkedObservation, LinkedObservation) -> bool {
    (a: LinkedObservation, b: LinkedObservation) => a.observation.observedAt <= b.observation.observedAt
  }

  function SeenBy(time: int): LinkedObservation -> bool {
    (o: LinkedObservation) => o.observation.observedAt <= time
  }

  /** The last observation at or before `time`, and the first one if there is none. */
  function Choose(sorted: seq<LinkedObservation>, time: int): Option<LinkedObservation> {
    var seen := Filter(sorted, SeenBy(time));
    if sorted == [] then None else Some(if seen == [] then sorted[0] else seen[|seen| - 1])
  }

  method SelectObservationForTurn(lastActivity: int, observations: seq<LinkedObservation>)
    returns (selected: Option<LinkedObservation>)
    ensures selected == Choose(StableSort(observations, EarlierFirst()), lastActivity)
  {
    var sorted := StableSort(observations, EarlierFirst());
    StableSortSorts(observations, EarlierFirst());
    selected := if sorted == [] then None else Some(sorted[0]);
    var i := 0;
    while i < |sorted|
      invariant 0 <= i <= |sorted|
      invariant forall k | 0 <= k < i :: SeenBy(lastActivity)(sorted[k])
      invariant selected == if sorted == [] then None else Some(if i == 0 then sorted[0] else sorted[i - 1])
    {
      if sorted[i].observation.observedAt > lastActivity {
        break;
      }
      selected := Some(sorted[i]);
      i := i + 1;
    }
    ChooseAt(sorted, i, lastActivity);
  }

  /** When exactly the first `i` are at or before `time`, the choice is the last of them. */
  lemma ChooseAt(sorted: seq<LinkedObservation>, i: nat, time: int)
    requires Sorted(sorted, EarlierFirst()) && i <= |sorted|
    requires forall k | 0 <= k < i :: SeenBy(time)(sorted[k])
    requires i < |sorted| ==> !SeenBy(time)(sorted[i])
    ensures Choose(sorted, time) == if sorted == [] then None else Some(if i == 0 then sorted[0] else sorted[i - 1])
  {
    forall k | i <= k < |sorted| ensures !SeenBy(time)(sorted[k]) {
      assert i < k ==> EarlierFirst()(sorted[i], sorted[k]);
    }
    FilterIsPrefix(sorted, i, SeenBy(time));
  }

  lemma FirstIsEarliest(sorted: seq<LinkedObservation>, o: LinkedObservation)
    requires Sorted(sorted, EarlierFirst()) && o in sorted
    ensures sorted[0].observation.observedAt <= o.observation.observedAt <= sorted[|sorted| - 1].observation.observedAt
  {
    var le := EarlierFirst();
    var i :| 0 <= i < |sorted| && sorted[i] == o;
    assert i > 0 ==> le(sorted[0], sorted[i]);
    assert i < |sorted| - 1 ==> le(sorted[i], sorted[|sorted| - 1]);
  }

  /** The chosen observation is the latest at or before the turn's last activity if there is one, and
      otherwise the earliest of all. */
  lemma ChosenIsLatestOrEarliest(observations: seq<LinkedObservation>, time: int)
    requires observations != []
    ensures Choose(StableSort(observations, EarlierFirst()), time).Some?
    ensures var chosen := Choose(StableSort(observations, EarlierFirst()), time).value;
            var at := chosen.observation.observedAt;
            && chosen in observations
            && (at <= time ==> (forall o | o in observations && o.observation.observedAt <= time ::
                                o.observation.observedAt <= at))
            && (at > time ==> (forall o | o in observations :: time < at <= o.observation.observedAt))
  {
    var sorted := StableSort(observations, EarlierFirst());
    StableSortSorts(observations, EarlierFirst());
    StableSortMembers(observations, EarlierFirst());
    var p := SeenBy(time);
    var seen := Filter(sorted, p);
    FilterIsSorted(sorted, p);
    assert sorted[0] in sorted && (seen != [] ==> seen[|seen| - 1] in seen);
    forall o | o in observations
      ensures seen == [] ==> time < sorted[0].observation.observedAt <= o.observation.observedAt
      ensures seen != [] && p(o) ==> o.observation.observedAt <= seen[|seen| - 1].observation.observedAt
    {
      FirstIsEarliest(sorted, o);
      assert p(o) ==> o in seen;
      assert p(sorted[0]) ==> sorted[0] in seen;
      if p(o) {
        FirstIsEarliest(seen, o);
      }
    }
  }

  lemma {:induction false} FilterIsSorted(xs: seq<LinkedObservation>, p: LinkedObservation -> bool)
    requires Sorted(xs, EarlierFirst())
    ensures Sorted(Filter(xs, p), EarlierFirst())
  {
    if xs != [] {
      FilterIsSorted(xs[1..], p);
      forall o | o in Filter(xs[1..], p) ensures EarlierFirst()(xs[0], o) {
        var i :| 0 <= i < |xs[1..]| && xs[1..][i] == o;
        assert EarlierFirst()(xs[0], xs[i + 1]);
      }
    }
  }

  // ------------------------------------------------- decorating turns

  predicate IsLinked(o: LinkedObservation) {
    HasProject(o.project) && o.state.Some?
  }

  /** `decorateTurn`, for the observations of the turn's session. */
  method DecorateTurn(turn: Turn, observations: seq<LinkedObservation>, projects: map<ProjectId, Project>,
                      manual: Option<Override>) returns (decorated: Turn)
    requires manual.Some? ==> manual.value.project in projects
    requires forall id | id in projects :: projects[id].id == id
    ensures decorated == Decorated(turn, observations, projects, manual)
  {
    if manual.Some? {
      var project := projects[manual.value.project];
      return turn.(project := Some(project.id), linkState := Linked(Committed));
    }
    var linked := Filter(observations, (o: LinkedObservation) => IsLinked(o));
    if |linked| == 0 {
      return turn;
    }
    var selected := SelectObservationForTurn(turn.lastActivity, linked);
    if selected.None? || !HasProject(selected.value.project) || selected.value.project.value !in projects {
      return turn;
    }
    var project := projects[selected.value.project.value];
    decorated := turn.(project := Some(project.id), linkState := Linked(project.state));
  }

  function Decorated(turn: Turn, observations: seq<LinkedObservation>, projects: map<ProjectId, Project>,
                     manual: Option<Override>): Turn
  {
    if manual.Some? then turn.(project := Some(manual.value.project), linkState := Linked(Committed))
    else
      var linked := Filter(observations, (o: LinkedObservation) => IsLinked(o));
      var chosen := Choose(StableSort(linked, EarlierFirst()), turn.lastActivity);
      if chosen.Some? && HasProject(chosen.value.project) && chosen.value.project.value in projects then
        var project := projects[chosen.value.project.value];
        turn.(project := Some(chosen.value.project.value), linkState := Linked(project.state))
      else turn
  }

  /** A turn without an override, in a session with linked observations of known projects, gets the
      project of the latest of them at or before its last activity, or else of the earliest. */
  lemma TurnFollowsObservation(turn: Turn, observations: seq<LinkedObservation>, projects: map<ProjectId, Project>)
    returns (o: LinkedObservation)
    requires forall l | l in observations && IsLinked(l) :: l.project.value in projects
    requires exists l :: l in observations && IsLinked(l)
    ensures o in observations && IsLinked(o)
    ensures var decorated := Decorated(turn, observations, projects, None);
            decorated.project == o.project && decorated.linkState == Linked(projects[o.project.value].state)
    ensures o.observation.observedAt <= turn.lastActivity ==>
      forall l | l in observations && IsLinked(l) && l.observation.observedAt <= turn.lastActivity ::
        l.observation.observedAt <= o.observation.observedAt
    ensures o.observation.observedAt > turn.lastActivity ==>
      forall l | l in observations && IsLinked(l) :: o.observation.observedAt <= l.observation.observedAt
  {
    var linked := Filter(observations, (l: LinkedObservation) => IsLinked(l));
    var l :| l in observations && IsLinked(l);
    assert l in linked;
    ChosenIsLatestOrEarliest(linked, turn.lastActivity);
    o := Choose(StableSort(linked, EarlierFirst()), turn.lastActivity).value;
  }

  function ManualFor(overrides: seq<Override>, turn: Turn): Option<Override> {
    OverrideOf(overrides, OnTurn, turn.id, turn.session)
  }

  function SessionObservations(observations: seq<LinkedObservation>, session: string): seq<LinkedObservation> {
    Filter(observations, (o: LinkedObservation) => o.observation.session == session)
  }

  function DecoratedTurns(turns: seq<Turn>, observations: seq<LinkedObservation>, projects: map<ProjectId, Project>,
                          overrides: seq<Override>): seq<Turn>
  {
    Map(turns, (t: Turn) =>
      Decorated(t, SessionObservations(observations, t.session), projects, ManualFor(overrides, t)))
  }

  // ------------------------------------------------- decorating sessions

  /** A session, with the project that it is shown under. */
  datatype Session = Session(id: string, primary: Option<ProjectId>)

  function LaterFirst(): (Turn, Turn) -> bool {
    (a: Turn, b: Turn) => a.lastActivity >= b.lastActivity
  }

  function Projected(): Turn -> bool {
    (t: Turn) => HasProject(t.project)
  }

  function OfSession(id: string): Turn -> bool {
    (t: Turn) => t.session == id
  }

  /** The turns that decide: the committed ones of those with a project, if there are any. */
  function Deciding(turns: seq<Turn>): seq<Turn> {
    var linked := Filter(turns, Projected());
    var committed := Filter(linked, InState(Committed));
    if committed != [] then committed else linked
  }

  /** `selectPrimaryProjectTurn`. */
  function PrimaryTurn(turns: seq<Turn>): Option<Turn> {
    var sorted := StableSort(Deciding(turns), LaterFirst());
    if sorted == [] then None else Some(sorted[0])
  }

  function DecoratedSession(s: Session, turns: seq<Turn>): Session {
    var preferred := PrimaryTurn(Filter(turns, OfSession(s.id)));
    if preferred.Some? then s.(primary := preferred.value.project) else s
  }

  lemma LaterFirstIsTotal()
    ensures TotalPreorder(LaterFirst())
  {}

  /** A session is shown under the project of its latest committed turn with a project, or, without such a turn,
      of its latest turn with a project; it keeps what it had exactly when no turn of it has a project. */
  lemma PrimaryIsLatest(turns: seq<Turn>)
    ensures PrimaryTurn(turns).None? <==> forall t | t in turns :: !HasProject(t.project)
    ensures PrimaryTurn(turns).Some? ==>
      var p := PrimaryTurn(turns).value;
      && p in turns && HasProject(p.project)
      && ((exists t :: t in turns && HasProject(t.project) && t.linkState == Linked(Committed)) ==>
            p.linkState == Linked(Committed))
      && forall t | t in turns && HasProject(t.project)
        && (t.linkState == Linked(Committed) <==> p.linkState == Linked(Committed)) ::
           t.lastActivity <= p.lastActivity
  {
    var linked, deciding := Filter(turns, Projected()), Deciding(turns);
    var committed := Filter(linked, InState(Committed));
    var sorted := StableSort(deciding, LaterFirst());
    LaterFirstIsTotal();
    StableSortSorts(deciding, LaterFirst());
    StableSortMembers(deciding, LaterFirst());
    forall t | t in turns && HasProject(t.project)
      ensures t in linked && (t.linkState == Linked(Committed) <==> t in committed)
    {
      assert Projected()(t);
    }
    if sorted != [] {
      assert sorted[0] in sorted;
      forall t | t in deciding ensures t.lastActivity <= sorted[0].lastActivity {
        LatestFirst(sorted, t);
      }
    }
  }

  lemma LatestFirst(sorted: seq<Turn>, t: Turn)
    requires t in sorted && Sorted(sorted, LaterFirst())
    ensures t.lastActivity <= sorted[0].lastActivity
  {
    var k :| 0 <= k < |sorted| && sorted[k] == t;
    assert k > 0 ==> LaterFirst()(sorted[0], sorted[k]);
  }

  // ------------------------------------------------- counts per project

  datatype Counts = Counts(committed: nat, candidate: nat, sessions: set<string>)

  const NO_COUNTS := Counts(0, 0, {})

  function CountTurn(c: Counts, t: Turn): Counts {
    Counts(c.committed + (if t.linkState == Linked(Committed) then 1 else 0),
           c.candidate + (if t.linkState == Linked(Candidate) then 1 else 0), c.sessions + {t.session})
  }

  function OfProject(id: ProjectId): Turn -> bool {
    (t: Turn) => HasProject(t.project) && t.project.value == id
  }

  function InState(state: LinkageState): Turn -> bool {
    (t: Turn) => t.linkState == Linked(state)
  }

  /** The turns of a project. */
  function TurnsOf(turns: seq<Turn>, id: ProjectId): seq<Turn> {
    Filter(turns, OfProject(id))
  }

  function CountsOf(turns: seq<Turn>): Counts {
    Counts(|Filter(turns, InState(Committed))|,
           |Filter(turns, InState(Candidate))|,
           set t | t in turns :: t.session)
  }

  function Lookup(counts: map<ProjectId, Counts>, id: ProjectId): Counts {
    if id in counts then counts[id] else NO_COUNTS
  }

  lemma CountsOfPush(turns: seq<Turn>, t: Turn)
    ensures CountsOf(turns + [t]) == CountTurn(CountsOf(turns), t)
  {
    FilterPush(turns, t, InState(Committed));
    FilterPush(turns, t, InState(Candidate));
    assert (set u | u in turns + [t] :: u.session) == (set u | u in turns :: u.session) + {t.session};
  }

  /** What the count of a project is: turns with an empty project id are not counted anywhere. */
  function ProjectCounts(turns: seq<Turn>, id: ProjectId): Counts {
    if id == Named("") then NO_COUNTS else CountsOf(TurnsOf(turns, id))
  }

  lemma ProjectCountsPush(turns: seq<Turn>, t: Turn, id: ProjectId)
    ensures ProjectCounts(turns + [t], id)
         == if HasProject(t.project) && t.project.value == id then CountTurn(ProjectCounts(turns, id), t)
            else ProjectCounts(turns, id)
  {
    FilterPush(turns, t, OfProject(id));
    CountsOfPush(TurnsOf(turns, id), t);
    assert TurnsOf(turns, id) + [] == TurnsOf(turns, id);
  }

  ghost predicate Counted(counts: map<ProjectId, Counts>, turns: seq<Turn>) {
    forall id :: Lookup(counts, id) == ProjectCounts(turns, id)
  }

  lemma CountedPush(counts: map<ProjectId, Counts>, turns: seq<Turn>, t: Turn)
    requires Counted(counts, turns)
    ensures Counted(if HasProject(t.project)
                    then counts[t.project.value := CountTurn(Lookup(counts, t.project.value), t)]
                    else counts, turns + [t])
  {
    var after := if HasProject(t.project)
                 then counts[t.project.value := CountTurn(Lookup(counts, t.project.value), t)] else counts;
    forall id ensures Lookup(after, id) == ProjectCounts(turns + [t], id) {
      ProjectCountsPush(turns, t, id);
      assert Lookup(counts, id) == ProjectCounts(turns, id);
    }
  }

  /** `projectTurnCounts`. */
  method RollUp(turns: seq<Turn>) returns (counts: map<ProjectId, Counts>)
    ensures forall id :: Lookup(counts, id) == ProjectCounts(turns, id)
  {
    counts := map[];
    for i := 0 to |turns|
      invariant Counted(counts, turns[..i])
    {
      var t := turns[i];
      CountedPush(counts, turns[..i], t);
      assert turns[..i + 1] == turns[..i] + [t];
      if HasProject(t.project) {
        counts := counts[t.project.value := CountTurn(Lookup(counts, t.project.value), t)];
      }
    }
    assert turns[..|turns|] == turns;
  }

  function TotalTurns(ids: seq<ProjectId>, turns: seq<Turn>): nat {
    if ids == [] then 0
    else
      var c := ProjectCounts(turns, ids[0]);
      c.committed + c.candidate + TotalTurns(ids[1..], turns)
  }

  // ------------------------------------------------- conservation

  predicate ArrivesUnlinked(t: Turn) {
    t.project == None && t.linkState == Unlinked
  }

  /** A turn that an override gives the empty project id. */
  predicate IsBlank(t: Turn) {
    t.project == Some(Named(""))
  }

  predicate InProject(t: Turn, ids: seq<ProjectId>) {
    HasProject(t.project) && t.project.value in ids
  }

  predicate IsUnlinked(t: Turn) {
    t.linkState == Unlinked
  }

  function Every(): Turn -> bool {
    (t: Turn) => true
  }

  function InProjects(ids: seq<ProjectId>): Turn -> bool {
    (t: Turn) => InProject(t, ids)
  }

  function Unlinkeds(): Turn -> bool {
    (t: Turn) => IsUnlinked(t)
  }

  function Blanks(): Turn -> bool {
    (t: Turn) => IsBlank(t)
  }

  function Loose(): Turn -> bool {
    (t: Turn) => IsUnlinked(t) || IsBlank(t)
  }

  /** After decoration a turn is in one project, or unlinked, or blank, and nothing else. */
  predicate Settled(t: Turn, ids: seq<ProjectId>) {
    && (InProject(t, ids) || IsUnlinked(t) || IsBlank(t))
    && (HasProject(t.project) || IsBlank(t) <==> t.linkState.Linked?)
  }

  lemma DecoratedIsSettled(t: Turn, observations: seq<LinkedObservation>, table: ProjectTable, manual: Option<Override>)
    requires TableOk(table) && ArrivesUnlinked(t) && (manual.Some? ==> manual.value.project in table.byId)
    ensures Settled(Decorated(t, observations, table.byId, manual), table.order)
    ensures IsBlank(Decorated(t, observations, table.byId, manual))
       <==> manual.Some? && manual.value.project == Named("")
  {
  }

  lemma {:induction false} CountsCoverTurns(turns: seq<Turn>)
    requires forall t | t in turns :: t.linkState.Linked?
    ensures CountsOf(turns).committed + CountsOf(turns).candidate == |turns|
  {
    FilterAll(turns, Every());
    forall t | t in turns ensures t.linkState == Linked(Committed) || t.linkState == Linked(Candidate) {
      match t.linkState.state case Committed => case Candidate =>
    }
    FilterSplit(turns, Every(), InState(Committed), InState(Candidate));
  }

  /** Summing over projects counts every turn of every listed project once. */
  lemma {:induction false} TotalCountsMembers(ids: seq<ProjectId>, turns: seq<Turn>)
    requires NoDuplicates(ids) && forall t | t in turns && HasProject(t.project) :: t.linkState.Linked?
    ensures TotalTurns(ids, turns) == |Filter(turns, InProjects(ids))|
  {
    if ids == [] {
      FilterNone(turns, InProjects(ids));
    } else {
      var id, rest := ids[0], ids[1..];
      var here := OfProject(id);
      TotalCountsMembers(rest, turns);
      assert forall i | 0 <= i < |rest| :: rest[i] == ids[i + 1];
      assert forall k :: k in ids <==> k == id || k in rest;
      FilterSplit(turns, InProjects(ids), here, InProjects(rest));
      CountsCoverTurns(TurnsOf(turns, id));
      if id == Named("") {
        FilterNone(turns, here);
      }
    }
  }

  /** Every settled turn is counted in exactly one place. */
  lemma SettledTurnsAreConserved(turns: seq<Turn>, ids: seq<ProjectId>)
    requires NoDuplicates(ids) && forall t | t in turns :: Settled(t, ids)
    ensures TotalTurns(ids, turns) + |Filter(turns, Unlinkeds())| + |Filter(turns, Blanks())|
         == |turns|
  {
    TotalCountsMembers(ids, turns);
    FilterAll(turns, Every());
    FilterSplit(turns, Every(), InProjects(ids), Loose());
    FilterSplit(turns, Loose(), Unlinkeds(), Blanks());
  }

  lemma {:induction false} OverrideForIsMember(overrides: seq<Override>, kind: TargetKind, target: string)
    ensures var o := OverrideFor(overrides, kind, target); o.Some? ==> o.value in overrides
  {
    if overrides != [] {
      OverrideForIsMember(overrides[..|overrides| - 1], kind, target);
    }
  }

  lemma ManualIsKnown(overrides: seq<Override>, t: Turn)
    ensures ManualFor(overrides, t).Some? ==> ManualFor(overrides, t).value in overrides
  {
    OverrideForIsMember(overrides, OnTurn, t.id);
    OverrideForIsMember(overrides, OnSession, t.session);
  }

  /** A turn that an override assigns to the empty project id. */
  predicate BlankOverride(overrides: seq<Override>, t: Turn) {
    ManualFor(overrides, t).Some? && ManualFor(overrides, t).value.project == Named("")
  }

  function BlankedBy(overrides: seq<Override>): Turn -> bool {
    (t: Turn) => BlankOverride(overrides, t)
  }

  /** Turns are conserved by linking: counted in one project, unlinked, or overridden to the empty id. */
  lemma TurnsAreConserved(turns: seq<Turn>, observations: seq<LinkedObservation>, table: ProjectTable,
                          overrides: seq<Override>)
    requires TableOk(table) && forall o | o in overrides :: o.project in table.byId
    requires forall t | t in turns :: ArrivesUnlinked(t)
    ensures var out := DecoratedTurns(turns, observations, table.byId, overrides);
            TotalTurns(table.order, out) + |Filter(out, Unlinkeds())|
              + |Filter(turns, BlankedBy(overrides))| == |turns|
  {
    var out := DecoratedTurns(turns, observations, table.byId, overrides);
    forall i | 0 <= i < |turns|
      ensures Settled(out[i], table.order) && (IsBlank(out[i]) <==> BlankOverride(overrides, turns[i]))
    {
      assert turns[i] in turns;
      ManualIsKnown(overrides, turns[i]);
      DecoratedIsSettled(turns[i], SessionObservations(observations, turns[i].session), table,
                         ManualFor(overrides, turns[i]));
    }
    SettledTurnsAreConserved(out, table.order);
    SameCount(out, turns, Blanks(), BlankedBy(overrides));
  }

  lemma {:induction false} SameCount(xs: seq<Turn>, ys: seq<Turn>, p: Turn -> bool, q: Turn -> bool)
    requires |xs| == |ys| && forall i | 0 <= i < |xs| :: p(xs[i]) <==> q(ys[i])
    ensures |Filter(xs, p)| == |Filter(ys, q)|
  {
    if xs != [] {
      SameCount(xs[1..], ys[1..], p, q);
    }
  }

  /** The counts over the projects and the unlinked turns add up to the turn total exactly when no
      turn is overridden to the empty project id. */
  lemma ConservationIff(turns: seq<Turn>, observations: seq<LinkedObservation>, table: ProjectTable,
                        overrides: seq<Override>)
    requires TableOk(table) && forall o | o in overrides :: o.project in table.byId
    requires forall t | t in turns :: ArrivesUnlinked(t)
    ensures var out := DecoratedTurns(turns, observations, table.byId, overrides);
            (TotalTurns(table.order, out) + |Filter(out, Unlinkeds())| == |turns|)
              <==> (forall t | t in turns :: !BlankOverride(overrides, t))
  {
    TurnsAreConserved(turns, observations, table, overrides);
    var blank := Filter(turns, BlankedBy(overrides));
    if blank != [] {
      assert blank[0] in blank;
    }
    if t :| t in turns && BlankOverride(overrides, t) {
      assert t in blank;
    }
  }

  // ------------------------------------------------- the snapshot

  datatype Summary = Summary(id: ProjectId, state: LinkageState, committed: nat, candidate: nat, sessions: nat)

  datatype Snapshot = Snapshot(projects: seq<Summary>, turns: seq<Turn>)

  function Total(projects: seq<Summary>): nat {
    if projects == [] then 0 else projects[0].committed + projects[0].candidate + Total(projects[1..])
  }

  lemma {:induction false} TotalIsTotalTurns(projects: seq<Summary>, ids: seq<ProjectId>, turns: seq<Turn>)
    requires |projects| == |ids|
    requires forall i | 0 <= i < |ids| ::
      projects[i].committed == ProjectCounts(turns, ids[i]).committed
      && projects[i].candidate == ProjectCounts(turns, ids[i]).candidate
    ensures Total(projects) == TotalTurns(ids, turns)
  {
    if ids != [] {
      TotalIsTotalTurns(projects[1..], ids[1..], turns);
    }
  }

  /** What a snapshot promises about its turns. */
  ghost predicate TurnsMatch(turns: seq<Turn>, out: seq<Turn>, overrides: seq<Override>) {
    && |out| == |turns|
    && forall i | 0 <= i < |turns| ::
         && out[i].id == turns[i].id && out[i].session == turns[i].session
         && out[i].lastActivity == turns[i].lastActivity
         && (ManualFor(overrides, turns[i]).Some? ==>
               out[i].project == Some(ManualFor(overrides, turns[i]).value.project)
                 && out[i].linkState == Linked(Committed))
  }

  /** What a snapshot promises about its projects: the counts are those of its turns. */
  ghost predicate ProjectsMatch(projects: seq<Summary>, out: seq<Turn>, overrides: seq<Override>) {
    && (forall i, j | 0 <= i < j < |projects| :: projects[i].id != projects[j].id)
    && (forall p | p in projects ::
          && p.committed == ProjectCounts(out, p.id).committed && p.candidate == ProjectCounts(out, p.id).candidate
          && p.sessions == |ProjectCounts(out, p.id).sessions|
          && ((exists o :: o in overrides && o.project == p.id) ==> p.state == Committed))
    && forall o | o in overrides :: exists p :: p in projects && p.id == o.project
  }

  /** `turnsBySessionId`: the turns of each session that has one, in their order. */
  ghost predicate BySession(table: map<string, seq<Turn>>, turns: seq<Turn>) {
    forall id :: TurnsIn(table, id) == Filter(turns, OfSession(id))
  }

  function TurnsIn(table: map<string, seq<Turn>>, id: string): seq<Turn> {
    if id in table then table[id] else []
  }

  function PushTurn(table: map<string, seq<Turn>>, t: Turn): map<string, seq<Turn>> {
    table[t.session := TurnsIn(table, t.session) + [t]]
  }

  lemma PushTurnIn(table: map<string, seq<Turn>>, turns: seq<Turn>, t: Turn, id: string)
    requires TurnsIn(table, id) == Filter(turns, OfSession(id))
    ensures TurnsIn(PushTurn(table, t), id) == Filter(turns + [t], OfSession(id))
  {
    FilterPush(turns, t, OfSession(id));
    assert Filter(turns, OfSession(id)) + [] == Filter(turns, OfSession(id));
  }

  lemma BySessionNext(table: map<string, seq<Turn>>, turns: seq<Turn>, i: nat)
    requires i < |turns| && BySession(table, turns[..i])
    ensures BySession(PushTurn(table, turns[i]), turns[..i + 1])
  {
    assert turns[..i + 1] == turns[..i] + [turns[i]];
    forall id ensures TurnsIn(PushTurn(table, turns[i]), id) == Filter(turns[..i + 1], OfSession(id)) {
      PushTurnIn(table, turns[..i], turns[i], id);
    }
  }

  method BuildTurnsBySessionId(turns: seq<Turn>) returns (table: map<string, seq<Turn>>)
    ensures BySession(table, turns)
  {
    table := map[];
    assert BySession(table, turns[..0]);
    for i := 0 to |turns|
      invariant BySession(table, turns[..i])
    {
      BySessionNext(table, turns, i);
      table := PushTurn(table, turns[i]);
    }
    assert turns[..|turns|] == turns;
  }

  /** Every session decorated by its own turns. */
  method DecorateSessions(sessions: seq<Session>, turns: seq<Turn>) returns (out: seq<Session>)
    ensures |out| == |sessions| && forall i | 0 <= i < |sessions| :: out[i] == DecoratedSession(sessions[i], turns)
  {
    var table := BuildTurnsBySessionId(turns);
    out := [];
    for i := 0 to |sessions|
      invariant |out| == i && forall k | 0 <= k < i :: out[k] == DecoratedSession(sessions[k], turns)
    {
      var id := sessions[i].id;
      var own := TurnsIn(table, id);
      assert own == Filter(turns, OfSession(id));
      var preferred := PrimaryTurn(own);
      out := out + [if preferred.Some? then sessions[i].(primary := preferred.value.project) else sessions[i]];
    }
  }

  /** The observations, classified and in the order in which they were made. */
  function ClassifiedByTime(observations: seq<Observation>): seq<Classified> {
    StableSort(Map(observations, (o: Observation) => Classify(o)),
               (a: Classified, b: Classified) => a.observation.observedAt <= b.observation.observedAt)
  }

  /** The observations with the projects of their groups, overrides applied. */
  function LinkedBy(groups: seq<Group>, classified: seq<Classified>, overrides: seq<Override>): seq<LinkedObservation> {
    Map(Map(classified, (c: Classified) => Link(groups, c.observation)),
        (o: LinkedObservation) => Overridden(overrides, o))
  }

  /** `deriveProjectLinkSnapshot`, from the hydrated observations on. */
  method DeriveSnapshot(observations: seq<Observation>, turns: seq<Turn>, sessions: seq<Session>,
                        overrides: seq<Override>, keyLe: (RuleKey, RuleKey) -> bool)
    returns (snapshot: Snapshot, shown: seq<Session>, ghost groups: seq<Group>, ghost table: ProjectTable,
             ghost committed: seq<seq<Classified>>, ghost candidate: seq<seq<Classified>>)
    ensures AreComponents(committed, Scope(ClassifiedByTime(observations), Committed), Committed)
    ensures AreComponents(candidate, Scope(ClassifiedByTime(observations), Candidate), Candidate)
    ensures groups == GroupsOf(committed, Committed, keyLe) + GroupsOf(candidate, Candidate, keyLe)
    ensures TableOk(table) && table.byId.Keys == (set g | g in groups :: g.id) + (set o | o in overrides :: o.project)
    ensures snapshot.turns
         == DecoratedTurns(turns, LinkedBy(groups, ClassifiedByTime(observations), overrides), table.byId, overrides)
    ensures TurnsMatch(turns, snapshot.turns, overrides)
    ensures ProjectsMatch(snapshot.projects, snapshot.turns, overrides)
    ensures (forall t | t in turns :: ArrivesUnlinked(t)) ==>
      Total(snapshot.projects) + |Filter(snapshot.turns, Unlinkeds())| + |Filter(turns, BlankedBy(overrides))|
        == |turns|
    ensures |shown| == |sessions|
    ensures forall i | 0 <= i < |sessions| :: shown[i] == DecoratedSession(sessions[i], snapshot.turns)
  {
    var classified := ClassifiedByTime(observations);
    var built, linked;
    built, linked, committed, candidate := BuildObservationGroups(classified, keyLe);
    groups := built;
    var projects := BuildProjects(built, overrides);
    table := projects;
    var overridden := Map(linked, (o: LinkedObservation) => Overridden(overrides, o));
    snapshot := Decorate(turns, overridden, projects, overrides);
    shown := DecorateSessions(sessions, snapshot.turns);
  }

  /** Feeding the observations in another order gives the same groups and links every observation to
      the same project. */
  lemma LinkingForgetsOrder(observations: seq<Observation>, observations': seq<Observation>,
                            keyLe: (RuleKey, RuleKey) -> bool,
                            committed: seq<seq<Classified>>, candidate: seq<seq<Classified>>,
                            committed': seq<seq<Classified>>, candidate': seq<seq<Classified>>, o: Observation)
    requires TotalOrder(keyLe) && multiset(observations) == multiset(observations')
    requires forall x, y | x in observations && y in observations && x.id == y.id :: x == y
    requires AreComponents(committed, Scope(ClassifiedByTime(observations), Committed), Committed)
    requires AreComponents(candidate, Scope(ClassifiedByTime(observations), Candidate), Candidate)
    requires AreComponents(committed', Scope(ClassifiedByTime(observations'), Committed), Committed)
    requires AreComponents(candidate', Scope(ClassifiedByTime(observations'), Candidate), Candidate)
    ensures var groups := GroupsOf(committed, Committed, keyLe) + GroupsOf(candidate, Candidate, keyLe);
            var groups' := GroupsOf(committed', Committed, keyLe) + GroupsOf(candidate', Candidate, keyLe);
            Views(groups) == Views(groups') && Link(groups, o) == Link(groups', o)
  {
    var classified, classified' := ClassifiedByTime(observations), ClassifiedByTime(observations');
    ClassifiedByTimeMembers(observations);
    ClassifiedByTimeMembers(observations');
    MapPermutation(observations, observations', (x: Observation) => Classify(x));
    GroupsForgetOrder(classified, classified', keyLe, committed, candidate, committed', candidate');
    LinksForgetOrder(classified, classified', keyLe, committed, candidate, committed', candidate', o);
  }

  lemma ClassifiedByTimeMembers(observations: seq<Observation>)
    ensures multiset(ClassifiedByTime(observations)) == multiset(Map(observations, (o: Observation) => Classify(o)))
    ensures AllClassified(ClassifiedByTime(observations))
    ensures forall c | c in ClassifiedByTime(observations) ::
      c.observation in observations && c == Classify(c.observation)
  {
    var classified := Map(observations, (o: Observation) => Classify(o));
    var le := (a: Classified, b: Classified) => a.observation.observedAt <= b.observation.observedAt;
    StableSortSorts(classified, le);
    StableSortMembers(classified, le);
    forall c | c in ClassifiedByTime(observations)
      ensures c.observation in observations && c == Classify(c.observation) && WellClassified(c)
    {
      assert c in classified;
      ClassifyIsKeyDetermined(c.observation);
    }
  }

  method Decorate(turns: seq<Turn>, observations: seq<LinkedObservation>, table: ProjectTable, overrides: seq<Override>)
    returns (snapshot: Snapshot)
    requires TableOk(table) && forall o | o in overrides :: o.project in table.byId
    ensures snapshot.turns == DecoratedTurns(turns, observations, table.byId, overrides)
    ensures TurnsMatch(turns, snapshot.turns, overrides)
    ensures ProjectsMatch(snapshot.projects, snapshot.turns, overrides)
    ensures (forall t | t in turns :: ArrivesUnlinked(t)) ==>
      Total(snapshot.projects) + |Filter(snapshot.turns, Unlinkeds())| + |Filter(turns, BlankedBy(overrides))|
        == |turns|
  {
    var out := DecorateAll(turns, observations, table.byId, overrides);
    var counts := RollUp(out);
    var projects := Summarise(table, counts, overrides, out);
    snapshot := Snapshot(projects, out);
    if forall t | t in turns :: ArrivesUnlinked(t) {
      TurnsAreConserved(turns, observations, table, overrides);
      TotalIsTotalTurns(projects, table.order, out);
    }
    forall o | o in overrides ensures exists p :: p in projects && p.id == o.project {
      var i :| 0 <= i < |table.order| && table.order[i] == o.project;
      assert projects[i] in projects;
    }
  }

  method DecorateAll(turns: seq<Turn>, observations: seq<LinkedObservation>, projects: map<ProjectId, Project>,
                     overrides: seq<Override>) returns (out: seq<Turn>)
    requires forall o | o in overrides :: o.project in projects
    requires forall id | id in projects :: projects[id].id == id
    ensures out == DecoratedTurns(turns, observations, projects, overrides)
  {
    out := [];
    for i := 0 to |turns|
      invariant |out| == i
      invariant forall j | 0 <= j < i :: out[j] == DecoratedTurns(turns, observations, projects, overrides)[j]
    {
      ManualIsKnown(overrides, turns[i]);
      var d := DecorateTurn(turns[i], SessionObservations(observations, turns[i].session), projects,
                            ManualFor(overrides, turns[i]));
      out := out + [d];
    }
  }

  method Summarise(table: ProjectTable, counts: map<ProjectId, Counts>, overrides: seq<Override>,
                   ghost turns: seq<Turn>)
    returns (projects: seq<Summary>)
    requires TableOk(table) && forall id :: Lookup(counts, id) == ProjectCounts(turns, id)
    ensures |projects| == |table.order|
    ensures forall i | 0 <= i < |projects| ::
      && projects[i].id == table.order[i]
      && projects[i].committed == ProjectCounts(turns, projects[i].id).committed
      && projects[i].candidate == ProjectCounts(turns, projects[i].id).candidate
      && projects[i].sessions == |ProjectCounts(turns, projects[i].id).sessions|
      && ((exists o :: o in overrides && o.project == projects[i].id) ==> projects[i].state == Committed)
  {
    projects := [];
    for k := 0 to |table.order|
      invariant |projects| == k
      invariant forall i | 0 <= i < k ::
        && projects[i].id == table.order[i]
        && projects[i].committed == ProjectCounts(turns, projects[i].id).committed
        && projects[i].candidate == ProjectCounts(turns, projects[i].id).candidate
        && projects[i].sessions == |ProjectCounts(turns, projects[i].id).sessions|
        && ((exists o :: o in overrides && o.project == projects[i].id) ==> projects[i].state == Committed)
    {
      var id := table.order[k];
      assert id in table.order;
      var c := Lookup(counts, id);
      var manual := exists o | o in overrides :: o.project == id;
      var state := if manual then Committed else table.byId[id].state;
      projects := projects + [Summary(id, state, c.committed, c.candidate, |c.sessions|)];
    }
  }
}
