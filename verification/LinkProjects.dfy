/** From components to projects, by primary rules. */
module LinkProjects {
  // The primary rule of a component, the project group that it makes, and why the groups do not depend on the
  // order of the observations.

  import opened Sequences
  import opened Sorting
  import opened LinkRules
  import opened Options
  import opened LinkGroups

  /** A project id: the digest of a rule key, or one that a manual override names. The digest is
      taken to be injective. */
  datatype ProjectId = Digest(key: RuleKey) | Named(name: string)

  datatype Group = Group(
    id: ProjectId, state: LinkageState, reason: LinkReason, confidence: int, observations: seq<Observation>)

  datatype LinkedObservation = LinkedObservation(
    observation: Observation, project: Option<ProjectId>, state: Option<LinkageState>, reason: Option<LinkReason>)

  // ------------------------------------------------- the primary rule

  function AllRules(component: seq<Classified>, state: LinkageState): seq<Rule> {
    if component == [] then [] else RulesOf(component[0], state) + AllRules(component[1..], state)
  }

  lemma {:induction false} AllRulesMembers(component: seq<Classified>, state: LinkageState, r: Rule)
    ensures r in AllRules(component, state) <==> exists c :: c in component && r in RulesOf(c, state)
  {
    if component != [] {
      AllRulesMembers(component[1..], state, r);
      assert forall c :: c in component <==> c == component[0] || c in component[1..];
    }
  }

  function DedupeByKey(rules: seq<Rule>, seen: set<RuleKey>): (r: seq<Rule>)
    ensures forall q | q in r :: q in rules && q.key !in seen
    decreases rules
  {
    if rules == [] then []
    else if rules[0].key in seen then DedupeByKey(rules[1..], seen)
    else [rules[0]] + DedupeByKey(rules[1..], seen + {rules[0].key})
  }

  lemma {:induction false} DedupeKeepsKeys(rules: seq<Rule>, seen: set<RuleKey>, q: Rule)
    requires q in rules && q.key !in seen
    ensures exists r :: r in DedupeByKey(rules, seen) && r.key == q.key
    decreases rules
  {
    if rules[0].key == q.key {
      assert rules[0] in DedupeByKey(rules, seen);
    } else {
      var seen' := if rules[0].key in seen then seen else seen + {rules[0].key};
      DedupeKeepsKeys(rules[1..], seen', q);
      var r :| r in DedupeByKey(rules[1..], seen') && r.key == q.key;
      assert r in DedupeByKey(rules, seen);
    }
  }

  /** How many observations of the component have the key. */
  function Support(component: seq<Classified>, state: LinkageState, key: RuleKey): nat {
    |Filter(component, c => HasKey(c, state, key))|
  }

  function Pool(component: seq<Classified>, state: LinkageState): seq<Rule> {
    var deduped := DedupeByKey(AllRules(component, state), {});
    var shared := Filter(deduped, (r: Rule) => Support(component, state, r.key) > 1);
    if shared != [] then shared else deduped
  }

  function PrimaryRule(component: seq<Classified>, state: LinkageState,
                       keyLe: (RuleKey, RuleKey) -> bool): Option<Rule>
  {
    var sorted := StableSort(Pool(component, state), RuleOrder(keyLe));
    if AllRules(component, state) == [] || sorted == [] then None else Some(sorted[0])
  }

  function CountOf(counts: map<RuleKey, nat>, key: RuleKey): nat {
    if key in counts then counts[key] else 0
  }

  lemma SupportPush(component: seq<Classified>, i: nat, state: LinkageState, key: RuleKey)
    requires i < |component|
    ensures Support(component[..i + 1], state, key)
         == Support(component[..i], state, key) + (if HasKey(component[i], state, key) then 1 else 0)
  {
    FilterPush(component[..i], component[i], (c: Classified) => HasKey(c, state, key));
    assert component[..i + 1] == component[..i] + [component[i]];
  }

  /** One observation counts once for each of its keys. */
  method CountObservation(counts: map<RuleKey, nat>, c: Classified, state: LinkageState)
    returns (counts': map<RuleKey, nat>)
    ensures forall key :: CountOf(counts', key) == CountOf(counts, key) + (if HasKey(c, state, key) then 1 else 0)
  {
    counts' := counts;
    var rules := RulesOf(c, state);
    var seen: set<RuleKey> := {};
    for j := 0 to |rules|
      invariant seen == set m | 0 <= m < j :: rules[m].key
      invariant forall key :: CountOf(counts', key) == CountOf(counts, key) + (if key in seen then 1 else 0)
    {
      if rules[j].key !in seen {
        seen := seen + {rules[j].key};
        counts' := counts'[rules[j].key := CountOf(counts', rules[j].key) + 1];
      }
    }
  }

  /** `countsByKey`. */
  method CountKeys(component: seq<Classified>, state: LinkageState) returns (counts: map<RuleKey, nat>)
    ensures forall key :: CountOf(counts, key) == Support(component, state, key)
  {
    counts := map[];
    for i := 0 to |component|
      invariant forall key :: CountOf(counts, key) == Support(component[..i], state, key)
    {
      forall key {
        SupportPush(component, i, state, key);
      }
      counts := CountObservation(counts, component[i], state);
    }
    assert component[..|component|] == component;
  }

  method SelectPrimaryRule(component: seq<Classified>, state: LinkageState, keyLe: (RuleKey, RuleKey) -> bool)
    returns (rule: Option<Rule>)
    ensures rule == PrimaryRule(component, state, keyLe)
  {
    var rules := AllRules(component, state);
    if rules == [] {
      return None;
    }
    var counts := CountKeys(component, state);
    var deduped := DedupeByKey(rules, {});
    var isShared := (r: Rule) => CountOf(counts, r.key) > 1;
    var shared := Filter(deduped, isShared);
    FilterAgree(deduped, isShared, (r: Rule) => Support(component, state, r.key) > 1);
    var sorted := StableSort(if shared != [] then shared else deduped, RuleOrder(keyLe));
    rule := if sorted == [] then None else Some(sorted[0]);
  }

  /** A key that at least two observations of the component have. */
  predicate SharedKey(component: seq<Classified>, state: LinkageState, key: RuleKey) {
    Support(component, state, key) > 1
  }

  /** The rules that compete to be primary: those on shared keys if there is one, else all. */
  ghost predicate Eligible(component: seq<Classified>, state: LinkageState, r: Rule) {
    && r in AllRules(component, state)
    && ((exists q :: q in AllRules(component, state) && SharedKey(component, state, q.key))
          ==> SharedKey(component, state, r.key))
  }

  ghost predicate Coherent(component: seq<Classified>) {
    forall c | c in component :: WellClassified(c)
  }

  lemma CoherentRules(component: seq<Classified>, state: LinkageState)
    requires Coherent(component)
    ensures KeyDetermined(AllRules(component, state), state)
  {
    forall r | r in AllRules(component, state) ensures r == RuleOfKey(r.key) && r.state == state {
      AllRulesMembers(component, state, r);
    }
  }

  lemma PoolIsEligible(component: seq<Classified>, state: LinkageState, r: Rule)
    requires Coherent(component)
    ensures r in Pool(component, state) <==> Eligible(component, state, r)
  {
    var rules := AllRules(component, state);
    var deduped := DedupeByKey(rules, {});
    CoherentRules(component, state);
    forall q | q in rules ensures q in deduped {
      DedupeKeepsKeys(rules, {}, q);
    }
    var isShared := (q: Rule) => Support(component, state, q.key) > 1;
    var shared := Filter(deduped, isShared);
    if shared != [] {
      assert shared[0] in shared;
      assert SharedKey(component, state, shared[0].key);
    } else {
      forall q | q in rules ensures !SharedKey(component, state, q.key) {
        assert q in deduped;
        assert SharedKey(component, state, q.key) ==> isShared(q);
      }
    }
  }

  /** The primary rule is the least eligible rule, and it is the only one. */
  lemma PrimaryRuleIsLeast(component: seq<Classified>, state: LinkageState, keyLe: (RuleKey, RuleKey) -> bool,
                           best: Rule)
    requires TotalOrder(keyLe) && Coherent(component)
    ensures PrimaryRule(component, state, keyLe) == Some(best)
       <==> Eligible(component, state, best)
            && forall r | Eligible(component, state, r) :: RuleLe(keyLe, best, r)
  {
    var pool := Pool(component, state);
    var le := RuleOrder(keyLe);
    var sorted := StableSort(pool, le);
    RuleOrderIsTotal(keyLe);
    StableSortSorts(pool, le);
    StableSortMembers(pool, le);
    CoherentRules(component, state);
    forall r ensures r in pool <==> Eligible(component, state, r) {
      PoolIsEligible(component, state, r);
    }
    if sorted != [] {
      assert sorted[0] in sorted;
      forall r | r in sorted ensures RuleLe(keyLe, sorted[0], r) {
        assert le(sorted[0], r) by {
          var i :| 0 <= i < |sorted| && sorted[i] == r;
          assert le(r, r);
        }
      }
    } else {
      assert forall r :: r !in pool;
    }
  }

  /** Every component of a scope has a primary rule. */
  lemma PrimaryRuleExists(component: seq<Classified>, state: LinkageState, keyLe: (RuleKey, RuleKey) -> bool,
                          c: Classified)
    requires TotalOrder(keyLe) && Coherent(component) && c in component && RulesOf(c, state) != []
    ensures PrimaryRule(component, state, keyLe).Some?
    ensures var rule := PrimaryRule(component, state, keyLe).value;
            && rule == RuleOfKey(rule.key) && rule.state == state
            && exists d :: d in component && HasKey(d, state, rule.key)
  {
    var r := RulesOf(c, state)[0];
    AllRulesMembers(component, state, r);
    var rules := AllRules(component, state);
    DedupeKeepsKeys(rules, {}, r);
    assert Pool(component, state) != [];
    var pool := Pool(component, state);
    RuleOrderIsTotal(keyLe);
    StableSortMembers(pool, RuleOrder(keyLe));
    var best := PrimaryRule(component, state, keyLe).value;
    assert best in StableSort(pool, RuleOrder(keyLe));
    PoolIsEligible(component, state, best);
    AllRulesMembers(component, state, best);
    CoherentRules(component, state);
    var d :| d in component && best in RulesOf(d, state);
    assert HasKey(d, state, best.key);
  }

  /** The primary rule does not depend on the order of the component. */
  lemma PrimaryRuleForgetsOrder(component: seq<Classified>, component': seq<Classified>, state: LinkageState,
                                keyLe: (RuleKey, RuleKey) -> bool)
    requires TotalOrder(keyLe) && Coherent(component) && Coherent(component')
    requires multiset(component) == multiset(component')
    ensures PrimaryRule(component, state, keyLe) == PrimaryRule(component', state, keyLe)
  {
    SameMembers(component, component');
    forall r ensures r in AllRules(component, state) <==> r in AllRules(component', state) {
      AllRulesMembers(component, state, r);
      AllRulesMembers(component', state, r);
    }
    forall key ensures SharedKey(component, state, key) <==> SharedKey(component', state, key) {
      FilterPermutation(component, component', (c: Classified) => HasKey(c, state, key));
    }
    forall r ensures Eligible(component, state, r) <==> Eligible(component', state, r) {
    }
    var a, b := PrimaryRule(component, state, keyLe), PrimaryRule(component', state, keyLe);
    if a.Some? {
      PrimaryRuleIsLeast(component, state, keyLe, a.value);
      PrimaryRuleIsLeast(component', state, keyLe, a.value);
    } else if b.Some? {
      PrimaryRuleIsLeast(component, state, keyLe, b.value);
      PrimaryRuleIsLeast(component', state, keyLe, b.value);
    }
  }

  // ------------------------------------------------- groups

  function Observations(component: seq<Classified>): seq<Observation> {
    Map(component, (c: Classified) => c.observation)
  }

  /** The project group of a component with primary rule `rule`. */
  function GroupOf(component: seq<Classified>, state: LinkageState, rule: Rule): Group {
    var observations := Observations(component);
    var metrics := ComponentMetrics(observations);
    var promote := state == Candidate && rule.reason == WorkspacePathContinuity && metrics.sessionCount >= 2;
    var linkage := if promote then Committed else rule.state;
    var confidence := if promote then WorkspaceContinuityConfidence(metrics) else rule.confidence;
    Group(Digest(rule.key), linkage, rule.reason, GroupConfidence(linkage, rule.reason, confidence, metrics),
          observations)
  }

  /** The group of one component, if it has a primary rule. */
  function GroupFor(component: seq<Classified>, state: LinkageState, keyLe: (RuleKey, RuleKey) -> bool): seq<Group> {
    var rule := PrimaryRule(component, state, keyLe);
    if rule.Some? then [GroupOf(component, state, rule.value)] else []
  }

  function GroupsOf(components: seq<seq<Classified>>, state: LinkageState,
                    keyLe: (RuleKey, RuleKey) -> bool): seq<Group>
  {
    if components == [] then []
    else GroupsOf(components[..|components| - 1], state, keyLe) + GroupFor(components[|components| - 1], state, keyLe)
  }

  /** The last group that holds an observation with this id. */
  function GroupWith(groups: seq<Group>, id: string): Option<Group> {
    if groups == [] then None
    else if exists o | o in groups[|groups| - 1].observations :: o.id == id then Some(groups[|groups| - 1])
    else GroupWith(groups[..|groups| - 1], id)
  }

  function Link(groups: seq<Group>, o: Observation): LinkedObservation {
    match GroupWith(groups, o.id)
    case None => LinkedObservation(o, None, None, None)
    case Some(g) => LinkedObservation(o, Some(g.id), Some(g.state), Some(g.reason))
  }

  lemma GroupsNext(components: seq<seq<Classified>>, state: LinkageState, keyLe: (RuleKey, RuleKey) -> bool, i: nat)
    requires i < |components|
    ensures var groups, rule := GroupsOf(components[..i], state, keyLe), PrimaryRule(components[i], state, keyLe);
            GroupsOf(components[..i + 1], state, keyLe)
              == if rule.Some? then groups + [GroupOf(components[i], state, rule.value)] else groups
  {
    assert components[..i + 1][..i] == components[..i];
    assert GroupsOf(components[..i], state, keyLe) + [] == GroupsOf(components[..i], state, keyLe);
  }

  /** The groups of one scope, one per component. */
  method BuildScopeGroups(classified: seq<Classified>, state: LinkageState, keyLe: (RuleKey, RuleKey) -> bool)
    returns (groups: seq<Group>, ghost components: seq<seq<Classified>>)
    ensures AreComponents(components, Scope(classified, state), state)
    ensures groups == GroupsOf(components, state, keyLe)
  {
    var scoped := Scope(classified, state);
    var found := ScopeComponents(scoped, state);
    components, groups := found, [];
    for i := 0 to |found|
      invariant groups == GroupsOf(found[..i], state, keyLe)
    {
      var rule := SelectPrimaryRule(found[i], state, keyLe);
      GroupsNext(found, state, keyLe, i);
      if rule.Some? {
        groups := groups + [GroupOf(found[i], state, rule.value)];
      }
    }
    assert found[..|found|] == found;
  }

  /** `buildObservationGroups`. */
  method BuildObservationGroups(classified: seq<Classified>, keyLe: (RuleKey, RuleKey) -> bool)
    returns (groups: seq<Group>, linked: seq<LinkedObservation>,
             ghost committed: seq<seq<Classified>>, ghost candidate: seq<seq<Classified>>)
    ensures AreComponents(committed, Scope(classified, Committed), Committed)
    ensures AreComponents(candidate, Scope(classified, Candidate), Candidate)
    ensures groups == GroupsOf(committed, Committed, keyLe) + GroupsOf(candidate, Candidate, keyLe)
    ensures linked == Map(classified, (c: Classified) => Link(groups, c.observation))
  {
    var first, second;
    first, committed := BuildScopeGroups(classified, Committed, keyLe);
    second, candidate := BuildScopeGroups(classified, Candidate, keyLe);
    groups := first + second;
    linked := Map(classified, (c: Classified) => Link(groups, c.observation));
  }

  // ------------------------------------------------- ids are unique

  /** What every component of a scope has. */
  lemma ComponentFacts(scoped: seq<Classified>, state: LinkageState, keyLe: (RuleKey, RuleKey) -> bool,
                       components: seq<seq<Classified>>, k: nat)
    requires TotalOrder(keyLe) && Coherent(scoped) && forall c | c in scoped :: InScope(c, state)
    requires AreComponents(components, scoped, state) && k < |components|
    ensures components[k] != [] && components[k][0] in scoped
      && components[k] == ComponentOf(scoped, state, components[k][0])
    ensures Coherent(components[k]) && PrimaryRule(components[k], state, keyLe).Some?
    ensures PrimaryRule(components[k], state, keyLe).value.state == state
    ensures PrimaryRule(components[k], state, keyLe).value
      == RuleOfKey(PrimaryRule(components[k], state, keyLe).value.key)
  {
    var c := components[k];
    assert c == ComponentOf(scoped, state, c[0]) && c[0] in c;
    PrimaryRuleExists(c, state, keyLe, c[0]);
  }

  /** Groups and components correspond one to one. */
  lemma {:induction false} GroupsOfMember(components: seq<seq<Classified>>, state: LinkageState,
                                          keyLe: (RuleKey, RuleKey) -> bool)
    requires forall k | 0 <= k < |components| :: PrimaryRule(components[k], state, keyLe).Some?
    ensures |GroupsOf(components, state, keyLe)| == |components|
    ensures forall k | 0 <= k < |components| ::
      GroupsOf(components, state, keyLe)[k]
        == GroupOf(components[k], state, PrimaryRule(components[k], state, keyLe).value)
  {
    GroupsAreFlat(components, state, keyLe);
    forall k | 0 <= k < |components|
      ensures GroupMaker(state, keyLe)(components[k])
           == [GroupOf(components[k], state, PrimaryRule(components[k], state, keyLe).value)]
    {
      OneGroup(components[k], state, keyLe);
    }
    FlatMapSingles(components, GroupMaker(state, keyLe));
  }

  function GroupMaker(state: LinkageState, keyLe: (RuleKey, RuleKey) -> bool): seq<Classified> -> seq<Group> {
    (component: seq<Classified>) => GroupFor(component, state, keyLe)
  }

  lemma {:induction false} GroupsAreFlat(components: seq<seq<Classified>>, state: LinkageState,
                                         keyLe: (RuleKey, RuleKey) -> bool)
    ensures GroupsOf(components, state, keyLe) == FlatMap(components, GroupMaker(state, keyLe))
  {
    if components != [] {
      GroupsAreFlat(components[..|components| - 1], state, keyLe);
    }
  }

  lemma OneGroup(component: seq<Classified>, state: LinkageState, keyLe: (RuleKey, RuleKey) -> bool)
    requires PrimaryRule(component, state, keyLe).Some?
    ensures GroupFor(component, state, keyLe) == [GroupOf(component, state, PrimaryRule(component, state, keyLe).value)]
  {}

  lemma ScopeGroups(scoped: seq<Classified>, state: LinkageState, keyLe: (RuleKey, RuleKey) -> bool,
                    components: seq<seq<Classified>>)
    requires TotalOrder(keyLe) && Coherent(scoped) && forall c | c in scoped :: InScope(c, state)
    requires AreComponents(components, scoped, state)
    ensures |GroupsOf(components, state, keyLe)| == |components|
    ensures forall k | 0 <= k < |components| ::
      && PrimaryRule(components[k], state, keyLe).Some?
      && GroupsOf(components, state, keyLe)[k]
        == GroupOf(components[k], state, PrimaryRule(components[k], state, keyLe).value)
      && RuleOfKey(PrimaryRule(components[k], state, keyLe).value.key).state == state
  {
    forall k | 0 <= k < |components|
      ensures PrimaryRule(components[k], state, keyLe).Some?
      ensures RuleOfKey(PrimaryRule(components[k], state, keyLe).value.key).state == state
    {
      ComponentFacts(scoped, state, keyLe, components, k);
    }
    GroupsOfMember(components, state, keyLe);
  }

  /** A component's primary key belongs to it: components with one key are connected. */
  lemma KeysSeparateComponents(scoped: seq<Classified>, state: LinkageState, components: seq<seq<Classified>>,
                               keyLe: (RuleKey, RuleKey) -> bool, k: nat, m: nat)
    requires TotalOrder(keyLe) && Coherent(scoped) && forall c | c in scoped :: InScope(c, state)
    requires AreComponents(components, scoped, state) && k < m < |components|
    ensures var a, b := PrimaryRule(components[k], state, keyLe), PrimaryRule(components[m], state, keyLe);
            a.Some? && b.Some? && a.value.key != b.value.key
  {
    var x, y := components[k], components[m];
    ComponentFacts(scoped, state, keyLe, components, k);
    ComponentFacts(scoped, state, keyLe, components, m);
    PrimaryRuleExists(x, state, keyLe, x[0]);
    PrimaryRuleExists(y, state, keyLe, y[0]);
    var a, b := PrimaryRule(x, state, keyLe).value, PrimaryRule(y, state, keyLe).value;
    if a.key == b.key {
      var c :| c in x && HasKey(c, state, a.key);
      var d :| d in y && HasKey(d, state, b.key);
      ConnectedStep(scoped, state, c, d);
      ConnectedTransitive(scoped, state, x[0], c, d);
      ConnectedSymmetric(scoped, state, y[0], d);
      ConnectedTransitive(scoped, state, x[0], d, y[0]);
    }
  }

  ghost predicate AllClassified(classified: seq<Classified>) {
    forall c | c in classified :: WellClassified(c)
  }

  lemma ScopeIsCoherent(classified: seq<Classified>, state: LinkageState)
    requires AllClassified(classified)
    ensures Coherent(Scope(classified, state)) && forall c | c in Scope(classified, state) :: InScope(c, state)
  {
  }

  predicate DistinctIds(groups: seq<Group>) {
    forall i, j | 0 <= i < j < |groups| :: groups[i].id != groups[j].id
  }

  /** The ids of one scope are distinct, and their keys tell the scope. */
  lemma ScopeIds(scoped: seq<Classified>, state: LinkageState, keyLe: (RuleKey, RuleKey) -> bool,
                 components: seq<seq<Classified>>)
    requires TotalOrder(keyLe) && Coherent(scoped) && forall c | c in scoped :: InScope(c, state)
    requires AreComponents(components, scoped, state)
    ensures DistinctIds(GroupsOf(components, state, keyLe))
    ensures forall g | g in GroupsOf(components, state, keyLe) :: g.id.Digest? && RuleOfKey(g.id.key).state == state
  {
    ScopeGroups(scoped, state, keyLe, components);
    var groups := GroupsOf(components, state, keyLe);
    forall i, j | 0 <= i < j < |groups| ensures groups[i].id != groups[j].id {
      KeysSeparateComponents(scoped, state, components, keyLe, i, j);
    }
  }

  /** No two groups have one project id, across both scopes. */
  lemma ProjectIdsAreUnique(classified: seq<Classified>, keyLe: (RuleKey, RuleKey) -> bool,
                            committed: seq<seq<Classified>>, candidate: seq<seq<Classified>>)
    requires TotalOrder(keyLe) && AllClassified(classified)
    requires AreComponents(committed, Scope(classified, Committed), Committed)
    requires AreComponents(candidate, Scope(classified, Candidate), Candidate)
    ensures DistinctIds(GroupsOf(committed, Committed, keyLe) + GroupsOf(candidate, Candidate, keyLe))
  {
    ScopeIsCoherent(classified, Committed);
    ScopeIsCoherent(classified, Candidate);
    ScopeIds(Scope(classified, Committed), Committed, keyLe, committed);
    ScopeIds(Scope(classified, Candidate), Candidate, keyLe, candidate);
    var a, b := GroupsOf(committed, Committed, keyLe), GroupsOf(candidate, Candidate, keyLe);
    var all := a + b;
    forall i, j | 0 <= i < j < |all| ensures all[i].id != all[j].id {
      assert i < |a| <= j ==> a[i] in a && b[j - |a|] in b;
    }
  }

  // ------------------------------------------------- order independence

  /** A group up to the order of its observations. */
  datatype GroupView = GroupView(
    id: ProjectId, state: LinkageState, reason: LinkReason, confidence: int, members: multiset<Observation>)

  function View(g: Group): GroupView {
    GroupView(g.id, g.state, g.reason, g.confidence, multiset(g.observations))
  }

  function Views(groups: seq<Group>): set<GroupView> {
    set g | g in groups :: View(g)
  }

  lemma GroupForgetsOrder(component: seq<Classified>, component': seq<Classified>, state: LinkageState, rule: Rule)
    requires multiset(component) == multiset(component')
    ensures View(GroupOf(component, state, rule)) == View(GroupOf(component', state, rule))
  {
    MapPermutation(component, component', (c: Classified) => c.observation);
    var a, b := Observations(component), Observations(component');
    SameMembers(a, b);
    assert (set o | o in a :: o.session) == (set o | o in b :: o.session);
    assert (set o | o in a :: o.platform) == (set o | o in b :: o.platform);
  }

  /** The component of an observation, up to order, does not depend on the order of the scope. */
  lemma ComponentForgetsOrder(scoped: seq<Classified>, scoped': seq<Classified>, state: LinkageState, c: Classified,
                              h: Classified)
    requires multiset(scoped) == multiset(scoped')
    requires Connected(scoped', state, h, c)
    ensures multiset(ComponentOf(scoped, state, c)) == multiset(ComponentOf(scoped', state, h))
  {
    SameMembers(scoped, scoped');
    FilterPermutation(scoped, scoped', LinkedTo(scoped, state, c));
    forall d | d in scoped' ensures Connected(scoped, state, c, d) == Connected(scoped', state, h, d) {
      ConnectedSameScope(scoped, scoped', state, c, d);
      if Connected(scoped', state, c, d) {
        ConnectedTransitive(scoped', state, h, c, d);
      }
      if Connected(scoped', state, h, d) {
        ConnectedSymmetric(scoped', state, h, c);
        ConnectedTransitive(scoped', state, c, h, d);
      }
    }
    FilterAgree(scoped', LinkedTo(scoped, state, c), LinkedTo(scoped', state, h));
  }

  lemma ScopeViewsIncluded(scoped: seq<Classified>, scoped': seq<Classified>, state: LinkageState,
                           keyLe: (RuleKey, RuleKey) -> bool,
                           components: seq<seq<Classified>>, components': seq<seq<Classified>>)
    requires TotalOrder(keyLe) && Coherent(scoped) && forall c | c in scoped :: InScope(c, state)
    requires multiset(scoped) == multiset(scoped')
    requires AreComponents(components, scoped, state) && AreComponents(components', scoped', state)
    ensures Views(GroupsOf(components, state, keyLe)) <= Views(GroupsOf(components', state, keyLe))
  {
    SameMembers(scoped, scoped');
    ScopeGroups(scoped, state, keyLe, components);
    ScopeGroups(scoped', state, keyLe, components');
    var groups, groups' := GroupsOf(components, state, keyLe), GroupsOf(components', state, keyLe);
    forall g | g in groups ensures View(g) in Views(groups') {
      var k :| 0 <= k < |groups| && groups[k] == g;
      var m := SameGroup(scoped, scoped', state, keyLe, components, components', k);
      assert groups'[m] in groups';
    }
  }

  /** Every component has a counterpart that makes the same group. */
  lemma SameGroup(scoped: seq<Classified>, scoped': seq<Classified>, state: LinkageState,
                  keyLe: (RuleKey, RuleKey) -> bool,
                  components: seq<seq<Classified>>, components': seq<seq<Classified>>, k: nat) returns (m: nat)
    requires TotalOrder(keyLe) && Coherent(scoped) && forall c | c in scoped :: InScope(c, state)
    requires multiset(scoped) == multiset(scoped')
    requires AreComponents(components, scoped, state) && AreComponents(components', scoped', state) && k < |components|
    ensures m < |components'|
    ensures var rule, rule' := PrimaryRule(components[k], state, keyLe), PrimaryRule(components'[m], state, keyLe);
            rule.Some? && rule' == rule
            && View(GroupOf(components[k], state, rule.value)) == View(GroupOf(components'[m], state, rule.value))
  {
    SameMembers(scoped, scoped');
    ComponentFacts(scoped, state, keyLe, components, k);
    var x := components[k];
    m :| 0 <= m < |components'| && x[0] in components'[m];
    ComponentFacts(scoped', state, keyLe, components', m);
    var y := components'[m];
    ComponentForgetsOrder(scoped, scoped', state, x[0], y[0]);
    PrimaryRuleForgetsOrder(x, y, state, keyLe);
    GroupForgetsOrder(x, y, state, PrimaryRule(x, state, keyLe).value);
  }

  /** Permuting the observations yields the same groups: the same members, project id, linkage
      state, reason and confidence. */
  lemma GroupsForgetOrder(classified: seq<Classified>, classified': seq<Classified>, keyLe: (RuleKey, RuleKey) -> bool,
                          committed: seq<seq<Classified>>, candidate: seq<seq<Classified>>,
                          committed': seq<seq<Classified>>, candidate': seq<seq<Classified>>)
    requires TotalOrder(keyLe) && AllClassified(classified) && multiset(classified) == multiset(classified')
    requires AreComponents(committed, Scope(classified, Committed), Committed)
    requires AreComponents(candidate, Scope(classified, Candidate), Candidate)
    requires AreComponents(committed', Scope(classified', Committed), Committed)
    requires AreComponents(candidate', Scope(classified', Candidate), Candidate)
    ensures Views(GroupsOf(committed, Committed, keyLe) + GroupsOf(candidate, Candidate, keyLe))
         == Views(GroupsOf(committed', Committed, keyLe) + GroupsOf(candidate', Candidate, keyLe))
  {
    SameMembers(classified, classified');
    SameScopeViews(classified, classified', Committed, keyLe, committed, committed');
    SameScopeViews(classified, classified', Candidate, keyLe, candidate, candidate');
    ViewsAppend(GroupsOf(committed, Committed, keyLe), GroupsOf(candidate, Candidate, keyLe));
    ViewsAppend(GroupsOf(committed', Committed, keyLe), GroupsOf(candidate', Candidate, keyLe));
  }

  lemma ViewsAppend(a: seq<Group>, b: seq<Group>)
    ensures Views(a + b) == Views(a) + Views(b)
  {
    assert forall g :: g in a + b <==> g in a || g in b;
  }

  lemma SameScopeViews(classified: seq<Classified>, classified': seq<Classified>, state: LinkageState,
                       keyLe: (RuleKey, RuleKey) -> bool, components: seq<seq<Classified>>,
                       components': seq<seq<Classified>>)
    requires TotalOrder(keyLe) && AllClassified(classified) && AllClassified(classified')
    requires multiset(classified) == multiset(classified')
    requires AreComponents(components, Scope(classified, state), state)
    requires AreComponents(components', Scope(classified', state), state)
    ensures Views(GroupsOf(components, state, keyLe)) == Views(GroupsOf(components', state, keyLe))
  {
    FilterPermutation(classified, classified', c => InScope(c, state));
    ScopeIsCoherent(classified, state);
    ScopeIsCoherent(classified', state);
    ScopeViewsIncluded(Scope(classified, state), Scope(classified', state), state, keyLe, components, components');
    ScopeViewsIncluded(Scope(classified', state), Scope(classified, state), state, keyLe, components', components);
  }

  // ------------------------------------------------- every observation has one project

  predicate Holds(g: Group, id: string) {
    exists o | o in g.observations :: o.id == id
  }

  lemma {:induction false} GroupWithFinds(groups: seq<Group>, id: string)
    ensures match GroupWith(groups, id)
            case Some(g) => g in groups && Holds(g, id)
            case None => forall g | g in groups :: !Holds(g, id)
  {
    if groups != [] {
      var last := groups[|groups| - 1];
      assert groups == groups[..|groups| - 1] + [last];
      GroupWithFinds(groups[..|groups| - 1], id);
    }
  }

  predicate DistinctObservationIds(classified: seq<Classified>) {
    forall c, d | c in classified && d in classified && c.observation.id == d.observation.id :: c == d
  }

  lemma {:induction false} GroupIndex(components: seq<seq<Classified>>, state: LinkageState,
                                      keyLe: (RuleKey, RuleKey) -> bool, g: Group) returns (k: nat)
    requires g in GroupsOf(components, state, keyLe)
    ensures k < |components| && GroupFor(components[k], state, keyLe) == [g]
  {
    var n := |components| - 1;
    if g in GroupFor(components[n], state, keyLe) {
      k := n;
    } else {
      k := GroupIndex(components[..n], state, keyLe, g);
    }
  }

  lemma GroupForHolds(component: seq<Classified>, state: LinkageState, keyLe: (RuleKey, RuleKey) -> bool, g: Group,
                      id: string)
    returns (c: Classified)
    requires GroupFor(component, state, keyLe) == [g] && Holds(g, id)
    ensures c in component && c.observation.id == id
  {
    assert g.observations == Observations(component);
    var i :| 0 <= i < |g.observations| && g.observations[i].id == id;
    c := component[i];
  }

  /** The observations of a scope's group are those of its component. */
  lemma GroupHolds(scoped: seq<Classified>, state: LinkageState, keyLe: (RuleKey, RuleKey) -> bool,
                   components: seq<seq<Classified>>, g: Group, id: string) returns (k: nat, c: Classified)
    requires AreComponents(components, scoped, state)
    requires g in GroupsOf(components, state, keyLe) && Holds(g, id)
    ensures k < |components| && components[k] != [] && GroupFor(components[k], state, keyLe) == [g]
    ensures c in scoped && c.observation.id == id && Connected(scoped, state, components[k][0], c)
  {
    k := GroupIndex(components, state, keyLe, g);
    c := GroupForHolds(components[k], state, keyLe, g, id);
    assert components[k] == ComponentOf(scoped, state, components[k][0]);
  }

  lemma OneOwnerInScope(scoped: seq<Classified>, state: LinkageState, keyLe: (RuleKey, RuleKey) -> bool,
                        components: seq<seq<Classified>>, g: Group, h: Group, id: string)
    requires DistinctObservationIds(scoped) && AreComponents(components, scoped, state)
    requires g in GroupsOf(components, state, keyLe) && Holds(g, id)
    requires h in GroupsOf(components, state, keyLe) && Holds(h, id)
    ensures g == h
  {
    var k, c := GroupHolds(scoped, state, keyLe, components, g, id);
    var m, d := GroupHolds(scoped, state, keyLe, components, h, id);
    HeadsOfOneComponent(scoped, state, components, k, m, c);
  }

  lemma HeadsOfOneComponent(scoped: seq<Classified>, state: LinkageState, components: seq<seq<Classified>>,
                            k: nat, m: nat, c: Classified)
    requires AreComponents(components, scoped, state) && k < |components| && m < |components|
    requires components[k] != [] && Connected(scoped, state, components[k][0], c)
    requires components[m] != [] && Connected(scoped, state, components[m][0], c)
    ensures k == m
  {
    var x, y := components[k][0], components[m][0];
    ConnectedSymmetric(scoped, state, x, c);
    ConnectedSymmetric(scoped, state, y, c);
    ConnectedTransitive(scoped, state, x, c, y);
    ConnectedTransitive(scoped, state, y, c, x);
  }

  /** An observation is in one group only. */
  lemma OneOwner(classified: seq<Classified>, keyLe: (RuleKey, RuleKey) -> bool,
                 committed: seq<seq<Classified>>, candidate: seq<seq<Classified>>, g: Group, h: Group, id: string)
    requires DistinctObservationIds(classified)
    requires AreComponents(committed, Scope(classified, Committed), Committed)
    requires AreComponents(candidate, Scope(classified, Candidate), Candidate)
    requires g in GroupsOf(committed, Committed, keyLe) + GroupsOf(candidate, Candidate, keyLe) && Holds(g, id)
    requires h in GroupsOf(committed, Committed, keyLe) + GroupsOf(candidate, Candidate, keyLe) && Holds(h, id)
    ensures g == h
  {
    var a, b := Scope(classified, Committed), Scope(classified, Candidate);
    if g in GroupsOf(committed, Committed, keyLe) {
      if h in GroupsOf(committed, Committed, keyLe) {
        OneOwnerInScope(a, Committed, keyLe, committed, g, h, id);
      } else {
        var k, c := GroupHolds(a, Committed, keyLe, committed, g, id);
        var m, d := GroupHolds(b, Candidate, keyLe, candidate, h, id);
      }
    } else if h in GroupsOf(candidate, Candidate, keyLe) {
      OneOwnerInScope(b, Candidate, keyLe, candidate, g, h, id);
    } else {
      var k, c := GroupHolds(b, Candidate, keyLe, candidate, g, id);
      var m, d := GroupHolds(a, Committed, keyLe, committed, h, id);
    }
  }

  /** Permuting the observations links every observation to the same project, in the same state and
      for the same reason. */
  lemma LinksForgetOrder(classified: seq<Classified>, classified': seq<Classified>, keyLe: (RuleKey, RuleKey) -> bool,
                         committed: seq<seq<Classified>>, candidate: seq<seq<Classified>>,
                         committed': seq<seq<Classified>>, candidate': seq<seq<Classified>>, o: Observation)
    requires TotalOrder(keyLe) && AllClassified(classified) && DistinctObservationIds(classified)
    requires multiset(classified) == multiset(classified')
    requires AreComponents(committed, Scope(classified, Committed), Committed)
    requires AreComponents(candidate, Scope(classified, Candidate), Candidate)
    requires AreComponents(committed', Scope(classified', Committed), Committed)
    requires AreComponents(candidate', Scope(classified', Candidate), Candidate)
    ensures Link(GroupsOf(committed, Committed, keyLe) + GroupsOf(candidate, Candidate, keyLe), o)
         == Link(GroupsOf(committed', Committed, keyLe) + GroupsOf(candidate', Candidate, keyLe), o)
  {
    var groups := GroupsOf(committed, Committed, keyLe) + GroupsOf(candidate, Candidate, keyLe);
    var groups' := GroupsOf(committed', Committed, keyLe) + GroupsOf(candidate', Candidate, keyLe);
    GroupsForgetOrder(classified, classified', keyLe, committed, candidate, committed', candidate');
    GroupWithFinds(groups, o.id);
    GroupWithFinds(groups', o.id);
    SameMembers(classified, classified');
    match GroupWith(groups, o.id)
    case Some(g) =>
      assert View(g) in Views(groups');
      var h :| h in groups' && View(h) == View(g);
      ViewHolds(g, h, o.id);
      OneOwner(classified', keyLe, committed', candidate', h, GroupWith(groups', o.id).value, o.id);
    case None =>
      if GroupWith(groups', o.id).Some? {
        var h := GroupWith(groups', o.id).value;
        assert View(h) in Views(groups);
        var g :| g in groups && View(g) == View(h);
        ViewHolds(h, g, o.id);
      }
  }

  lemma ViewHolds(g: Group, h: Group, id: string)
    requires View(g) == View(h)
    ensures Holds(g, id) ==> Holds(h, id)
  {
    SameMembers(g.observations, h.observations);
  }

  /** An observation is linked exactly when it has a rule at all, and then to the group it is in. */
  lemma LinkedIffRules(classified: seq<Classified>, keyLe: (RuleKey, RuleKey) -> bool,
                       committed: seq<seq<Classified>>, candidate: seq<seq<Classified>>, c: Classified)
    requires TotalOrder(keyLe) && AllClassified(classified) && DistinctObservationIds(classified) && c in classified
    requires AreComponents(committed, Scope(classified, Committed), Committed)
    requires AreComponents(candidate, Scope(classified, Candidate), Candidate)
    ensures var linked :=
      Link(GroupsOf(committed, Committed, keyLe) + GroupsOf(candidate, Candidate, keyLe), c.observation);
            linked.project.Some? <==> c.committed != [] || c.candidate != []
  {
    var groups := GroupsOf(committed, Committed, keyLe) + GroupsOf(candidate, Candidate, keyLe);
    GroupWithFinds(groups, c.observation.id);
    match GroupWith(groups, c.observation.id)
    case Some(g) =>
      var state := if g in GroupsOf(committed, Committed, keyLe) then Committed else Candidate;
      var k, d := GroupHolds(Scope(classified, state), state, keyLe,
                             if state == Committed then committed else candidate, g, c.observation.id);
    case None =>
      if c.committed != [] || c.candidate != [] {
        RuledIsGrouped(classified, keyLe, committed, candidate, c);
      }
  }

  /** An observation with a rule is in a group. */
  lemma RuledIsGrouped(classified: seq<Classified>, keyLe: (RuleKey, RuleKey) -> bool,
                       committed: seq<seq<Classified>>, candidate: seq<seq<Classified>>, c: Classified)
    requires TotalOrder(keyLe) && AllClassified(classified) && DistinctObservationIds(classified) && c in classified
    requires AreComponents(committed, Scope(classified, Committed), Committed)
    requires AreComponents(candidate, Scope(classified, Candidate), Candidate)
    requires c.committed != [] || c.candidate != []
    ensures exists g :: g in GroupsOf(committed, Committed, keyLe) + GroupsOf(candidate, Candidate, keyLe)
                        && c.observation in g.observations
  {
    var state := if c.committed != [] then Committed else Candidate;
    var components, scoped := if state == Committed then committed else candidate, Scope(classified, state);
    ScopeIsCoherent(classified, state);
    ScopeGroups(scoped, state, keyLe, components);
    var k :| 0 <= k < |components| && c in components[k];
    var g := GroupsOf(components, state, keyLe)[k];
    var i :| 0 <= i < |components[k]| && components[k][i] == c;
    assert g.observations[i] == c.observation;
    assert g in GroupsOf(committed, Committed, keyLe) + GroupsOf(candidate, Candidate, keyLe);
  }
}
