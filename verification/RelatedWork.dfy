/** The related-work index, by session. */
module RelatedWork {
  // Relation fragments are folded into entries.

  import opened Options
  import opened Sequences
  import opened Sorting

  datatype Session = Session(id: string, source: string, platform: string, native: Option<string>)

  /** The fields of a relation payload, whatever their spelling; empty strings are absent. */
  datatype Payload = Payload(
    automation: bool, sidechain: bool, parentRef: Option<string>, childRef: Option<string>,
    agent: Option<string>, sessionKey: Option<string>, job: Option<string>,
    status: Option<string>, tool: Option<string>)

  datatype Fragment = Fragment(id: string, relation: bool, session: string, time: int, payload: Option<Payload>)

  datatype Direction = Inbound | Outbound | Self

  /** What an entry is about: the parts of its key. */
  datatype RelationKey =
    | Delegated(parent: string, child: string, agent: string, direction: Direction)
    | Automation(owner: string, evidence: string, job: string, run: string, direction: Direction)

  /** `created` and `updated` are the time span of the fragments; `refs` are their ids, listed sorted. */
  datatype Entry = Entry(
    id: string, key: RelationKey, created: int, updated: int, refs: set<string>,
    status: Option<string>, tool: Option<string>)

  // ------------------------------------------------- entry ids

  predicate CleanChar(c: char) {
    'a' <= c <= 'z' || 'A' <= c <= 'Z' || '0' <= c <= '9' || c == '.' || c == '_' || c == '-'
  }

  function DropDirty(s: string): (r: string)
    ensures |r| <= |s|
  {
    if s != "" && !CleanChar(s[0]) then DropDirty(s[1..]) else s
  }

  /** Every run of other characters becomes one hyphen. */
  function Sanitize(s: string): string
    decreases |s|
  {
    if s == "" then ""
    else if CleanChar(s[0]) then [s[0]] + Sanitize(s[1..])
    else "-" + Sanitize(DropDirty(s[1..]))
  }

  function DirectionText(d: Direction): string {
    match d case Inbound => "inbound" case Outbound => "outbound" case Self => "self"
  }

  function KeyText(key: RelationKey): string {
    match key
    case Delegated(parent, child, agent, direction) =>
      "delegated:" + (parent + DelegatedTail(child, agent, direction))
    case Automation(owner, evidence, job, run, direction) =>
      "automation:" + owner + ":" + evidence + ":" + job + ":" + run + ":" + DirectionText(direction)
  }

  function DelegatedTail(child: string, agent: string, direction: Direction): string {
    ":" + child + ":" + agent + ":" + DirectionText(direction)
  }

  /** `compositeKey("session-related-work", query, key)`. */
  function EntryId(query: string, key: RelationKey): string {
    "session-related-work-" + Sanitize(query + "-" + KeyText(key))
  }

  // ------------------------------------------------- resolving sessions

  /** What the dot of a regular expression matches throughout. */
  predicate OneLine(s: string) {
    '\n' !in s && '\r' !in s && '\U{2028}' !in s && '\U{2029}' !in s
  }

  /** The part of an id after `sess:<platform>:`, if it has that form. */
  function SuffixAlias(id: string): Option<string> {
    if "sess:" <= id then
      var rest := id[5..];
      var colon := ColonFrom(rest, 0);
      if 0 < colon < |rest| - 1 && OneLine(rest[colon + 1..]) then Some(rest[colon + 1..]) else None
    else None
  }

  function ColonFrom(s: string, i: nat): (r: nat)
    requires i <= |s|
    ensures i <= r <= |s|
    decreases |s| - i
  {
    if i == |s| || s[i] == ':' then i else ColonFrom(s, i + 1)
  }

  function Aliases(s: Session): set<string> {
    {s.id} + (if s.native.Some? && s.native.value != "" then {s.native.value} else {})
    + (if SuffixAlias(s.id).Some? then {SuffixAlias(s.id).value} else {})
  }

  function Only(sessions: seq<Session>): Option<Session> {
    if |sessions| == 1 then Some(sessions[0]) else None
  }

  function OrElse<T>(a: Option<T>, b: Option<T>): Option<T> {
    if a.Some? then a else b
  }

  /** The one session that a reference means: unique in the source, or on the platform, or at all. */
  function Resolve(reference: string, evidence: Session, sessions: seq<Session>): Option<Session> {
    var matches := Filter(sessions, Bears(reference));
    var sameSource := Filter(matches, OfSource(evidence.source));
    var samePlatform := Filter(matches, OnPlatform(evidence.platform));
    OrElse(Only(sameSource), OrElse(Only(samePlatform), Only(matches)))
  }

  function Bears(reference: string): Session -> bool {
    (s: Session) => reference in Aliases(s)
  }

  /** The sessions that bear a reference, in the evidence's source, on its platform, and anywhere. */
  function Bearers(reference: string, sessions: seq<Session>): seq<Session> {
    Filter(sessions, Bears(reference))
  }

  function OfSource(source: string): Session -> bool {
    (s: Session) => s.source == source
  }

  function OnPlatform(platform: string): Session -> bool {
    (s: Session) => s.platform == platform
  }

  lemma SamePick(xs: seq<Session>, ys: seq<Session>)
    requires multiset(xs) == multiset(ys)
    ensures Only(xs) == Only(ys)
  {
    SameMembers(xs, ys);
    if |xs| == 1 {
      assert xs[0] in ys;
    }
  }

  /** What a reference means does not depend on the order of the sessions. */
  lemma ResolveForgetsOrder(reference: string, evidence: Session, sessions: seq<Session>, sessions': seq<Session>)
    requires multiset(sessions) == multiset(sessions')
    ensures Resolve(reference, evidence, sessions) == Resolve(reference, evidence, sessions')
  {
    var all, all' := Bearers(reference, sessions), Bearers(reference, sessions');
    FilterPermutation(sessions, sessions', Bears(reference));
    FilterPermutation(all, all', OfSource(evidence.source));
    FilterPermutation(all, all', OnPlatform(evidence.platform));
    SamePick(Filter(all, OfSource(evidence.source)), Filter(all', OfSource(evidence.source)));
    SamePick(Filter(all, OnPlatform(evidence.platform)), Filter(all', OnPlatform(evidence.platform)));
    SamePick(all, all');
  }

  /** The value of a `Map` from ids to sessions: the last session wins. */
  function SessionById(sessions: seq<Session>, id: string): Option<Session> {
    if sessions == [] then None
    else if sessions[|sessions| - 1].id == id then Some(sessions[|sessions| - 1])
    else SessionById(sessions[..|sessions| - 1], id)
  }

  // ------------------------------------------------- what a fragment contributes

  datatype Contribution = Contribution(session: string, entry: Entry)

  function Text(s: Option<string>): string {
    if s.Some? then s.value else ""
  }

  function MakeContribution(query: Session, key: RelationKey, f: Fragment): Contribution {
    var status := if f.payload.Some? then f.payload.value.status else None;
    var tool := if f.payload.Some? then f.payload.value.tool else None;
    Contribution(query.id, Entry(EntryId(query.id, key), key, f.time, f.time, {f.id}, status, tool))
  }

  /** A delegation: an entry under the child, and one under the parent if it is another session. */
  function DelegatedContributions(sessions: seq<Session>, evidence: Session, p: Payload,
                                  f: Fragment): seq<Contribution>
  {
    var parent := if p.parentRef.Some? then Resolve(p.parentRef.value, evidence, sessions) else None;
    var resolved := if p.childRef.Some? then Resolve(p.childRef.value, evidence, sessions) else None;
    var child := if resolved.Some? then resolved.value else evidence;
    var parentRef := if parent.Some? then parent.value.id
                     else if p.parentRef.Some? then p.parentRef.value else "unknown-parent";
    [MakeContribution(child, Delegated(parentRef, child.id, Text(p.agent), Inbound), f)]
    + (if parent.Some? && parent.value.id != child.id then
         [MakeContribution(parent.value, Delegated(parentRef, child.id, Text(p.agent), Outbound), f)]
       else [])
  }

  function AutomationContributions(sessions: seq<Session>, evidence: Session, p: Payload,
                                   f: Fragment): seq<Contribution>
  {
    var parent := if p.parentRef.Some? then Resolve(p.parentRef.value, evidence, sessions) else None;
    var owner := if parent.Some? then parent.value.id
                 else if p.parentRef.Some? then p.parentRef.value else evidence.id;
    var run := if p.sessionKey.Some? then p.sessionKey.value else f.id;
    [MakeContribution(evidence, Automation(owner, evidence.id, Text(p.job), run, Self), f)]
    + (if parent.Some? && parent.value.id != evidence.id then
         [MakeContribution(parent.value, Automation(owner, evidence.id, Text(p.job), run, Outbound), f)]
       else [])
  }

  predicate IsDelegation(sessions: seq<Session>, f: Fragment) {
    && f.relation && SessionById(sessions, f.session).Some? && f.payload.Some?
    && !f.payload.value.automation && (f.payload.value.sidechain || f.payload.value.parentRef.Some?)
  }

  function Contributions(sessions: seq<Session>, f: Fragment): seq<Contribution> {
    var evidence := SessionById(sessions, f.session);
    if !f.relation || evidence.None? || f.payload.None? then []
    else if f.payload.value.automation then AutomationContributions(sessions, evidence.value, f.payload.value, f)
    else if IsDelegation(sessions, f) then DelegatedContributions(sessions, evidence.value, f.payload.value, f)
    else []
  }

  function ContributionsOf(sessions: seq<Session>): Fragment -> seq<Contribution> {
    (f: Fragment) => Contributions(sessions, f)
  }

  function AllContributions(sessions: seq<Session>, fragments: seq<Fragment>): seq<Contribution> {
    FlatMap(fragments, ContributionsOf(sessions))
  }

  // ------------------------------------------------- merging

  /** The entries of one session, with their ids in the order in which they came up. */
  datatype Group = Group(order: seq<string>, entries: map<string, Entry>)

  const EMPTY_GROUP := Group([], map[])

  type Groups = map<string, Group>

  function MergeEntry(existing: Entry, entry: Entry): Entry {
    existing.(created := if existing.created <= entry.created then existing.created else entry.created,
              updated := if existing.updated >= entry.updated then existing.updated else entry.updated,
              refs := existing.refs + entry.refs,
              tool := OrElse(existing.tool, entry.tool),
              status := OrElse(entry.status, existing.status))
  }

  function GroupFor(groups: Groups, session: string): Group {
    if session in groups then groups[session] else EMPTY_GROUP
  }

  function MergeInto(groups: Groups, c: Contribution): Groups {
    var g := GroupFor(groups, c.session);
    if c.entry.id in g.entries then
      groups[c.session := g.(entries := g.entries[c.entry.id := MergeEntry(g.entries[c.entry.id], c.entry)])]
    else groups[c.session := Group(g.order + [c.entry.id], g.entries[c.entry.id := c.entry])]
  }

  function MergeAll(groups: Groups, cs: seq<Contribution>): Groups {
    if cs == [] then groups else MergeInto(MergeAll(groups, cs[..|cs| - 1]), cs[|cs| - 1])
  }

  lemma MergeAllPush(groups: Groups, cs: seq<Contribution>, c: Contribution)
    ensures MergeAll(groups, cs + [c]) == MergeInto(MergeAll(groups, cs), c)
  {
    assert (cs + [c])[..|cs|] == cs;
  }

  lemma {:induction false} MergeAllAppend(groups: Groups, a: seq<Contribution>, b: seq<Contribution>)
    ensures MergeAll(groups, a + b) == MergeAll(MergeAll(groups, a), b)
  {
    if b == [] {
      assert a + b == a;
    } else {
      MergeAllAppend(groups, a, b[..|b| - 1]);
      assert (a + b)[..|a + b| - 1] == a + b[..|b| - 1];
    }
  }

  /** The nested maps that the loop over the fragments fills. */
  class Builder {
    var groups: Groups

    constructor ()
      ensures groups == map[]
    {
      groups := map[];
    }

    /** `mergeSessionRelatedWork`. */
    method Merge(c: Contribution)
      modifies this
      ensures groups == MergeInto(old(groups), c)
    {
      var grouped := GroupFor(groups, c.session);
      if c.entry.id in grouped.entries {
        var existing := grouped.entries[c.entry.id];
        existing := existing.(created := if existing.created <= c.entry.created then existing.created
                              else c.entry.created);
        existing := existing.(updated := if existing.updated >= c.entry.updated then existing.updated
                              else c.entry.updated);
        existing := existing.(refs := existing.refs + c.entry.refs);
        existing := existing.(tool := OrElse(existing.tool, c.entry.tool));
        existing := existing.(status := OrElse(c.entry.status, existing.status));
        groups := groups[c.session := grouped.(entries := grouped.entries[c.entry.id := existing])];
        return;
      }
      groups := groups[c.session := Group(grouped.order + [c.entry.id], grouped.entries[c.entry.id := c.entry])];
    }

    method AddFragment(sessions: seq<Session>, f: Fragment)
      modifies this
      ensures groups == MergeAll(old(groups), Contributions(sessions, f))
    {
      var cs := Contributions(sessions, f);
      for i := 0 to |cs|
        invariant groups == MergeAll(old(groups), cs[..i])
      {
        assert cs[..i + 1][..i] == cs[..i];
        Merge(cs[i]);
      }
      assert cs[..|cs|] == cs;
    }

    method AddAll(sessions: seq<Session>, fragments: seq<Fragment>)
      requires groups == map[]
      modifies this
      ensures groups == MergeAll(map[], AllContributions(sessions, fragments))
    {
      for i := 0 to |fragments|
        invariant groups == MergeAll(map[], AllContributions(sessions, fragments[..i]))
      {
        MergeAllAppend(map[], AllContributions(sessions, fragments[..i]), Contributions(sessions, fragments[i]));
        assert fragments[..i + 1][..i] == fragments[..i];
        AddFragment(sessions, fragments[i]);
      }
      assert fragments[..|fragments|] == fragments;
    }
  }

  /** Sorted by the time of creation, then by id. */
  predicate EntryLe(idLe: (string, string) -> bool, a: Entry, b: Entry) {
    if a.created != b.created then a.created < b.created else idLe(a.id, b.id)
  }

  function ByTimeAndId(idLe: (string, string) -> bool): (Entry, Entry) -> bool {
    (a: Entry, b: Entry) => EntryLe(idLe, a, b)
  }

  function Listing(g: Group): seq<Entry>
    requires forall id | id in g.order :: id in g.entries
  {
    seq(|g.order|, i requires 0 <= i < |g.order| => assert g.order[i] in g.order; g.entries[g.order[i]])
  }

  ghost predicate GroupOk(g: Group) {
    && NoDuplicates(g.order)
    && (forall id :: id in g.order <==> id in g.entries)
    && (forall id | id in g.entries :: g.entries[id].id == id)
  }

  ghost predicate GroupsOk(groups: Groups) {
    forall s | s in groups :: GroupOk(groups[s])
  }

  lemma {:induction false} MergeAllOk(cs: seq<Contribution>)
    ensures GroupsOk(MergeAll(map[], cs))
  {
    if cs != [] {
      var before, c := MergeAll(map[], cs[..|cs| - 1]), cs[|cs| - 1];
      MergeAllOk(cs[..|cs| - 1]);
      var g := GroupFor(before, c.session);
      assert GroupOk(g);
      assert forall id :: id in g.order + [c.entry.id] <==> id in g.order || id == c.entry.id;
    }
  }

  /** `buildSessionRelatedWorkIndex`. */
  method BuildIndex(sessions: seq<Session>, fragments: seq<Fragment>, idLe: (string, string) -> bool)
    returns (index: map<string, seq<Entry>>)
    ensures index == Index(MergeAll(map[], AllContributions(sessions, fragments)), idLe)
  {
    var builder := new Builder();
    builder.AddAll(sessions, fragments);
    index := Index(builder.groups, idLe);
  }

  function SortedListing(g: Group, idLe: (string, string) -> bool): seq<Entry> {
    if forall id | id in g.order :: id in g.entries then StableSort(Listing(g), ByTimeAndId(idLe)) else []
  }

  function Index(groups: Groups, idLe: (string, string) -> bool): map<string, seq<Entry>> {
    map s | s in groups :: SortedListing(groups[s], idLe)
  }

  // ------------------------------------------------- what an entry holds

  /** Whether a contribution goes to this entry of this session. */
  predicate Goes(c: Contribution, session: string, id: string) {
    c.session == session && c.entry.id == id
  }

  ghost predicate Reached(cs: seq<Contribution>, session: string, id: string) {
    exists c :: c in cs && Goes(c, session, id)
  }

  predicate Present(groups: Groups, session: string, id: string) {
    session in groups && id in groups[session].entries
  }

  /** The entry sums up exactly the contributions that go to it: its time span and its references. */
  ghost predicate SumsUp(e: Entry, cs: seq<Contribution>, session: string, id: string) {
    && e.id == id
    && (exists c :: c in cs && Goes(c, session, id) && c.entry.created == e.created)
    && (forall c | c in cs && Goes(c, session, id) :: e.created <= c.entry.created && c.entry.updated <= e.updated)
    && (exists c :: c in cs && Goes(c, session, id) && c.entry.updated == e.updated)
    && (forall r :: r in e.refs <==> exists c :: c in cs && Goes(c, session, id) && r in c.entry.refs)
    && (exists c :: c in cs && Goes(c, session, id) && c.entry.key == e.key)
  }

  lemma MembersPush(cs: seq<Contribution>)
    requires cs != []
    ensures forall c :: c in cs <==> c in cs[..|cs| - 1] || c == cs[|cs| - 1]
  {
    assert cs == cs[..|cs| - 1] + [cs[|cs| - 1]];
  }

  lemma MergeSumsUp(e: Entry, cs: seq<Contribution>, session: string, id: string, last: Contribution,
                    cs': seq<Contribution>)
    requires SumsUp(e, cs, session, id) && Goes(last, session, id)
    requires forall c :: c in cs' <==> c in cs || c == last
    ensures SumsUp(MergeEntry(e, last.entry), cs', session, id)
  {
    var m := MergeEntry(e, last.entry);
    var a :| a in cs && Goes(a, session, id) && a.entry.created == e.created;
    var b :| b in cs && Goes(b, session, id) && b.entry.updated == e.updated;
    var k :| k in cs && Goes(k, session, id) && k.entry.key == e.key;
    assert a in cs' && b in cs' && k in cs' && last in cs';
    forall r ensures r in m.refs <==> exists c :: c in cs' && Goes(c, session, id) && r in c.entry.refs {
      if r in e.refs {
        var c :| c in cs && Goes(c, session, id) && r in c.entry.refs;
        assert c in cs';
      }
    }
  }

  lemma SumsUpElsewhere(e: Entry, cs: seq<Contribution>, session: string, id: string, last: Contribution,
                        cs': seq<Contribution>)
    requires SumsUp(e, cs, session, id) && !Goes(last, session, id)
    requires forall c :: c in cs' <==> c in cs || c == last
    ensures SumsUp(e, cs', session, id)
  {
    var a :| a in cs && Goes(a, session, id) && a.entry.created == e.created;
    var b :| b in cs && Goes(b, session, id) && b.entry.updated == e.updated;
    var k :| k in cs && Goes(k, session, id) && k.entry.key == e.key;
    assert a in cs' && b in cs' && k in cs';
    forall r | r in e.refs ensures exists c :: c in cs' && Goes(c, session, id) && r in c.entry.refs {
      var c :| c in cs && Goes(c, session, id) && r in c.entry.refs;
      assert c in cs';
    }
  }

  lemma FirstSumsUp(cs: seq<Contribution>, session: string, id: string, last: Contribution)
    requires Goes(last, session, id) && last in cs
    requires forall c | c in cs && Goes(c, session, id) :: c == last
    ensures SumsUp(last.entry, cs, session, id)
  {
  }

  /** Every entry sums up exactly its contributions, and there is an entry wherever one went. */
  lemma {:induction false} EntriesSumUp(cs: seq<Contribution>, session: string, id: string)
    ensures var groups := MergeAll(map[], cs);
            && (Present(groups, session, id) <==> Reached(cs, session, id))
            && (Present(groups, session, id) ==> SumsUp(groups[session].entries[id], cs, session, id))
  {
    if cs != [] {
      var init, last := cs[..|cs| - 1], cs[|cs| - 1];
      var before := MergeAll(map[], init);
      EntriesSumUp(init, session, id);
      MembersPush(cs);
      if Goes(last, session, id) {
        assert last in cs;
        if Present(before, session, id) {
          MergeSumsUp(before[session].entries[id], init, session, id, last, cs);
        } else {
          FirstSumsUp(cs, session, id, last);
        }
      } else {
        assert Present(MergeInto(before, last), session, id) <==> Present(before, session, id);
        if Present(before, session, id) {
          SumsUpElsewhere(before[session].entries[id], init, session, id, last, cs);
        }
      }
    }
  }

  // ------------------------------------------------- order does not matter

  /** An entry without the fields that the first fragment decides. */
  datatype EntryView = EntryView(id: string, created: int, updated: int, refs: set<string>)

  function View(e: Entry): EntryView {
    EntryView(e.id, e.created, e.updated, e.refs)
  }

  lemma ContributionOrigin(sessions: seq<Session>, fragments: seq<Fragment>, c: Contribution)
    ensures c in AllContributions(sessions, fragments) <==> exists f ::
      f in fragments && c in Contributions(sessions, f)
  {
    FlatMapMembers(fragments, ContributionsOf(sessions), c);
    if f :| f in fragments && c in Contributions(sessions, f) {
      var i :| 0 <= i < |fragments| && fragments[i] == f;
      assert c in ContributionsOf(sessions)(fragments[i]);
    }
  }

  lemma SumsUpUnique(a: Entry, b: Entry, cs: seq<Contribution>, cs': seq<Contribution>, session: string, id: string)
    requires SumsUp(a, cs, session, id) && SumsUp(b, cs', session, id)
    requires forall c :: c in cs <==> c in cs'
    ensures View(a) == View(b)
  {
    var x :| x in cs && Goes(x, session, id) && x.entry.created == a.created;
    var y :| y in cs' && Goes(y, session, id) && y.entry.created == b.created;
    var u :| u in cs && Goes(u, session, id) && u.entry.updated == a.updated;
    var w :| w in cs' && Goes(w, session, id) && w.entry.updated == b.updated;
    assert x in cs' && y in cs && u in cs' && w in cs;
    forall r ensures r in a.refs <==> r in b.refs {
      if r in a.refs {
        var c :| c in cs && Goes(c, session, id) && r in c.entry.refs;
        assert c in cs';
      }
      if r in b.refs {
        var c :| c in cs' && Goes(c, session, id) && r in c.entry.refs;
        assert c in cs;
      }
    }
  }

  /** Permuting (or repeating) fragments changes no entry's time span or references. */
  lemma EntriesForgetOrder(sessions: seq<Session>, fragments: seq<Fragment>, fragments': seq<Fragment>,
                           session: string, id: string)
    requires forall f :: f in fragments <==> f in fragments'
    ensures var groups := MergeAll(map[], AllContributions(sessions, fragments));
            var groups' := MergeAll(map[], AllContributions(sessions, fragments'));
            && (Present(groups, session, id) <==> Present(groups', session, id))
            && (Present(groups, session, id) ==>
                  View(groups[session].entries[id]) == View(groups'[session].entries[id]))
  {
    var cs, cs' := AllContributions(sessions, fragments), AllContributions(sessions, fragments');
    forall c ensures c in cs <==> c in cs' {
      ContributionOrigin(sessions, fragments, c);
      ContributionOrigin(sessions, fragments', c);
    }
    EntriesSumUp(cs, session, id);
    EntriesSumUp(cs', session, id);
    var groups, groups' := MergeAll(map[], cs), MergeAll(map[], cs');
    assert Reached(cs, session, id) <==> Reached(cs', session, id);
    if Present(groups, session, id) {
      SumsUpUnique(groups[session].entries[id], groups'[session].entries[id], cs, cs', session, id);
    }
  }

  function Views(entries: seq<Entry>): seq<EntryView> {
    Map(entries, (e: Entry) => View(e))
  }

  function ViewOrder(idLe: (string, string) -> bool): (EntryView, EntryView) -> bool {
    (a: EntryView, b: EntryView) => if a.created != b.created then a.created < b.created else idLe(a.id, b.id)
  }

  lemma ViewOrderIsTotal(idLe: (string, string) -> bool)
    requires TotalOrder(idLe)
    ensures TotalPreorder(ViewOrder(idLe))
    ensures forall a, b :: ViewOrder(idLe)(a, b) && ViewOrder(idLe)(b, a) ==> a.id == b.id
  {
    var le := ViewOrder(idLe);
    forall a, b ensures le(a, b) || le(b, a) {
      assert idLe(a.id, b.id) || idLe(b.id, a.id);
    }
    forall a, b, c | le(a, b) && le(b, c) ensures le(a, c) {
      assert idLe(a.id, b.id) && idLe(b.id, c.id) ==> idLe(a.id, c.id);
    }
  }

  lemma ViewsOfListing(g: Group)
    requires GroupOk(g)
    ensures NoDuplicates(Views(Listing(g)))
    ensures forall i | 0 <= i < |g.order| ::
      Views(Listing(g))[i] == View(g.entries[g.order[i]]) && Views(Listing(g))[i].id == g.order[i]
  {
    assert forall i | 0 <= i < |g.order| :: g.order[i] in g.order;
  }

  /** Groups with the same entries hold the same views, in some order. */
  lemma ListingsPermute(g: Group, g': Group)
    requires GroupOk(g) && GroupOk(g') && forall id :: id in g.entries <==> id in g'.entries
    requires forall id | id in g.entries :: View(g.entries[id]) == View(g'.entries[id])
    ensures multiset(Views(Listing(g))) == multiset(Views(Listing(g')))
  {
    var xs, ys := Views(Listing(g)), Views(Listing(g'));
    ViewsOfListing(g);
    ViewsOfListing(g');
    forall x | x in xs ensures x in ys {
      var i :| 0 <= i < |xs| && xs[i] == x;
      assert g.order[i] in g.order && g.order[i] in g'.order;
      var j :| 0 <= j < |g'.order| && g'.order[j] == g.order[i];
      assert ys[j] == x;
    }
    SameSize(g.order, g'.order);
    DistinctPermutation(xs, ys);
  }

  /** No two views of a listing tie. */
  lemma ListingNeverTies(g: Group, idLe: (string, string) -> bool)
    requires TotalOrder(idLe) && GroupOk(g)
    ensures Antisymmetric(Views(Listing(g)), ViewOrder(idLe))
  {
    var xs, le := Views(Listing(g)), ViewOrder(idLe);
    ViewsOfListing(g);
    ViewOrderIsTotal(idLe);
    forall a, b | a in xs && b in xs && le(a, b) && le(b, a) ensures a == b {
      var i :| 0 <= i < |xs| && xs[i] == a;
      var j :| 0 <= j < |xs| && xs[j] == b;
      assert g.order[i] == g.order[j];
    }
  }

  lemma SortedViews(g: Group, idLe: (string, string) -> bool)
    requires TotalOrder(idLe) && GroupOk(g)
    ensures Views(SortedListing(g, idLe)) == StableSort(Views(Listing(g)), ViewOrder(idLe))
  {
    SortMap(Listing(g), (e: Entry) => View(e), ByTimeAndId(idLe), ViewOrder(idLe));
  }

  /** Two groups with the same entries, in any order of arrival, are listed alike. */
  lemma ListingsAgree(g: Group, g': Group, idLe: (string, string) -> bool)
    requires TotalOrder(idLe) && GroupOk(g) && GroupOk(g')
    requires forall id :: id in g.entries <==> id in g'.entries
    requires forall id | id in g.entries :: View(g.entries[id]) == View(g'.entries[id])
    ensures Views(SortedListing(g, idLe)) == Views(SortedListing(g', idLe))
  {
    ListingsPermute(g, g');
    ListingNeverTies(g, idLe);
    ViewOrderIsTotal(idLe);
    SortForgetsOrder(Views(Listing(g)), Views(Listing(g')), ViewOrder(idLe));
    SortedViews(g, idLe);
    SortedViews(g', idLe);
  }

  lemma SameSize(xs: seq<string>, ys: seq<string>)
    requires NoDuplicates(xs) && NoDuplicates(ys) && forall x :: x in xs <==> x in ys
    ensures |xs| == |ys|
  {
    DistinctCardinality(xs);
    DistinctCardinality(ys);
    assert ToSet(xs) == ToSet(ys);
  }

  /** The index ignores fragment order: the same sessions, and under each the same list of entries
      with the same ids, time spans and references, in the one order by time and id. */
  lemma IndexForgetsOrder(sessions: seq<Session>, fragments: seq<Fragment>, fragments': seq<Fragment>,
                          idLe: (string, string) -> bool)
    requires TotalOrder(idLe) && forall f :: f in fragments <==> f in fragments'
    ensures var index := Index(MergeAll(map[], AllContributions(sessions, fragments)), idLe);
            var index' := Index(MergeAll(map[], AllContributions(sessions, fragments')), idLe);
            && index.Keys == index'.Keys
            && forall s | s in index :: Views(index[s]) == Views(index'[s])
  {
    var cs, cs' := AllContributions(sessions, fragments), AllContributions(sessions, fragments');
    var groups, groups' := MergeAll(map[], cs), MergeAll(map[], cs');
    MergeAllOk(cs);
    MergeAllOk(cs');
    forall s, id
      ensures Present(groups, s, id) <==> Present(groups', s, id)
      ensures Present(groups, s, id) ==> View(groups[s].entries[id]) == View(groups'[s].entries[id])
    {
      EntriesForgetOrder(sessions, fragments, fragments', s, id);
    }
    forall s ensures s in groups <==> s in groups' {
      if s in groups {
        var id := GroupNotEmpty(cs, s);
        assert Present(groups', s, id);
      }
      if s in groups' {
        var id := GroupNotEmpty(cs', s);
        assert Present(groups, s, id);
      }
    }
    forall s | s in groups ensures Views(SortedListing(groups[s], idLe)) == Views(SortedListing(groups'[s], idLe)) {
      forall id ensures id in groups[s].entries <==> id in groups'[s].entries {
        assert Present(groups, s, id) <==> Present(groups', s, id);
      }
      forall id | id in groups[s].entries ensures View(groups[s].entries[id]) == View(groups'[s].entries[id]) {
        assert Present(groups, s, id);
      }
      ListingsAgree(groups[s], groups'[s], idLe);
    }
  }

  lemma {:induction false} GroupNotEmpty(cs: seq<Contribution>, s: string) returns (id: string)
    requires s in MergeAll(map[], cs)
    ensures Present(MergeAll(map[], cs), s, id)
  {
    var last := cs[|cs| - 1];
    if last.session == s {
      id := last.entry.id;
    } else {
      id := GroupNotEmpty(cs[..|cs| - 1], s);
    }
  }

  // ------------------------------------------------- one entry, one relation

  /** Contributions that go to one entry are about one relation: ids tell keys apart. */
  ghost predicate Faithful(cs: seq<Contribution>) {
    forall c, d | c in cs && d in cs && c.session == d.session && c.entry.id == d.entry.id :: c.entry.key == d.entry.key
  }

  /** Every contribution ends in an entry about its own relation. */
  ghost predicate Pure(groups: Groups, cs: seq<Contribution>) {
    forall c | c in cs :: Present(groups, c.session, c.entry.id)
                       && groups[c.session].entries[c.entry.id].key == c.entry.key
  }

  /** Entries are about one relation each exactly when no two relations of a session have one id. */
  lemma PureIffFaithful(cs: seq<Contribution>)
    ensures Pure(MergeAll(map[], cs), cs) <==> Faithful(cs)
  {
    var groups := MergeAll(map[], cs);
    forall c | c in cs
      ensures Present(groups, c.session, c.entry.id)
      ensures Faithful(cs) ==> groups[c.session].entries[c.entry.id].key == c.entry.key
    {
      EntriesSumUp(cs, c.session, c.entry.id);
      assert Goes(c, c.session, c.entry.id);
    }
  }

  /** Ids do not tell all keys apart: any two characters that are replaced are replaced alike. */
  lemma {:induction false} SanitizeForgets(p: string, c: char, d: char, s: string)
    requires !CleanChar(c) && !CleanChar(d)
    ensures Sanitize(p + [c] + s) == Sanitize(p + [d] + s)
    ensures DropDirty(p + [c] + s) == DropDirty(p + [d] + s)
            || (|DropDirty(p + [c] + s)| > |s|
                && exists q: string ::
                  DropDirty(p + [c] + s) == q + [c] + s && DropDirty(p + [d] + s) == q + [d] + s && |q| <= |p|)
    decreases |p|
  {
    var x, y := p + [c] + s, p + [d] + s;
    if p == "" {
      assert x[1..] == s && y[1..] == s;
    } else {
      var p' := p[1..];
      assert x[1..] == p' + [c] + s && y[1..] == p' + [d] + s;
      SanitizeForgets(p', c, d, s);
      if CleanChar(p[0]) {
        assert x == p + [c] + s && y == p + [d] + s && |p| <= |p|;
      } else if DropDirty(x[1..]) != DropDirty(y[1..]) {
        var q: string :| DropDirty(x[1..]) == q + [c] + s && DropDirty(y[1..]) == q + [d] + s && |q| <= |p'|;
        SanitizeForgets(q, c, d, s);
      }
    }
  }

  /** Two parents whose ids differ in one such character get one entry under a child. */
  lemma ParentsCollide(query: string, p: string, c: char, d: char, s: string, child: string, agent: string,
                       dir: Direction)
    requires !CleanChar(c) && !CleanChar(d)
    ensures EntryId(query, Delegated(p + [c] + s, child, agent, dir))
      == EntryId(query, Delegated(p + [d] + s, child, agent, dir))
  {
    var start, tail := query + "-" + "delegated:", DelegatedTail(child, agent, dir);
    SanitizeForgets(start + p, c, d, s + tail);
    Regroup(query + "-", "delegated:", p, c, s, tail);
    Regroup(query + "-", "delegated:", p, d, s, tail);
  }

  lemma Regroup(a: string, b: string, p: string, c: char, s: string, tail: string)
    ensures a + (b + ((p + [c] + s) + tail)) == ((a + b) + p) + [c] + (s + tail)
  {
  }

  // ------------------------------------------------- delegations pair up

  /** An inbound entry under `child` about the delegation of an outbound entry, with all of its references. */
  ghost predicate HasInbound(groups: Groups, parent: string, e: Entry)
    requires e.key.Delegated?
  {
    exists id :: Present(groups, e.key.child, id)
      && groups[e.key.child].entries[id].key == Delegated(parent, e.key.child, e.key.agent, Inbound)
      && e.refs <= groups[e.key.child].entries[id].refs
  }

  predicate IsOutbound(e: Entry) {
    e.key.Delegated? && e.key.direction == Outbound
  }

  ghost predicate Paired(groups: Groups) {
    forall s, id | Present(groups, s, id) && IsOutbound(groups[s].entries[id]) ::
      HasInbound(groups, s, groups[s].entries[id])
  }

  /** The same relation, seen in another direction. */
  function Facing(key: RelationKey, direction: Direction): RelationKey {
    match key
    case Delegated(parent, child, agent, _) => Delegated(parent, child, agent, direction)
    case Automation(owner, evidence, job, run, _) => Automation(owner, evidence, job, run, direction)
  }

  /** A delegated fragment has exactly one inbound contribution and at most one outbound one, which
      goes to the session that the inbound one names as its parent. */
  lemma DelegationContributes(sessions: seq<Session>, f: Fragment)
    requires IsDelegation(sessions, f)
    ensures var cs := Contributions(sessions, f);
            && 1 <= |cs| <= 2
            && cs[0].entry.key.Delegated? && cs[0].entry.key.direction == Inbound
            && cs[0].session == cs[0].entry.key.child
            && (|cs| == 2 ==>
                  cs[1].entry.key == Facing(cs[0].entry.key, Outbound) && cs[1].session == cs[0].entry.key.parent)
            && forall c | c in cs :: c.entry.refs == {f.id} && c.entry.id == EntryId(c.session, c.entry.key)
  {
  }

  lemma DelegationIsTheSource(sessions: seq<Session>, f: Fragment, c: Contribution)
    requires c in Contributions(sessions, f) && c.entry.key.Delegated?
    ensures IsDelegation(sessions, f)
  {
  }

  /** The inbound contribution of the fragment that an outbound one comes from. */
  lemma FragmentHasInbound(sessions: seq<Session>, f: Fragment, c: Contribution) returns (i: Contribution)
    requires c in Contributions(sessions, f) && IsOutbound(c.entry)
    ensures i in Contributions(sessions, f) && Answers(i, c)
  {
    DelegationIsTheSource(sessions, f, c);
    DelegationContributes(sessions, f);
    i := Contributions(sessions, f)[0];
  }

  /** An inbound contribution of the same fragment, about the same delegation, under the child. */
  predicate Answers(i: Contribution, c: Contribution)
    requires IsOutbound(c.entry)
  {
    && c.session == c.entry.key.parent && i.session == c.entry.key.child
    && i.entry.key == Facing(c.entry.key, Inbound) && i.entry.refs == c.entry.refs
    && i.entry.id == EntryId(i.session, i.entry.key)
  }

  lemma OutboundHasInbound(sessions: seq<Session>, fragments: seq<Fragment>, c: Contribution) returns (i: Contribution)
    requires c in AllContributions(sessions, fragments) && IsOutbound(c.entry)
    ensures i in AllContributions(sessions, fragments) && Answers(i, c)
  {
    ContributionOrigin(sessions, fragments, c);
    var f :| f in fragments && c in Contributions(sessions, f);
    i := FragmentHasInbound(sessions, f, c);
    ContributionOrigin(sessions, fragments, i);
  }

  /** A contribution refers to its fragment, and its id is made of its session and its relation. */
  ghost predicate WellMade(c: Contribution) {
    c.entry.id == EntryId(c.session, c.entry.key) && exists r :: c.entry.refs == {r}
  }

  lemma ContributionsWellMade(sessions: seq<Session>, fragments: seq<Fragment>)
    ensures forall c | c in AllContributions(sessions, fragments) :: WellMade(c)
  {
    forall c | c in AllContributions(sessions, fragments) ensures WellMade(c) {
      ContributionOrigin(sessions, fragments, c);
      var f :| f in fragments && c in Contributions(sessions, f);
      FragmentWellMade(sessions, f, c);
    }
  }

  lemma MadeWell(query: Session, key: RelationKey, f: Fragment)
    ensures WellMade(MakeContribution(query, key, f))
  {
    assert MakeContribution(query, key, f).entry.refs == {f.id};
  }

  lemma DelegatedWellMade(sessions: seq<Session>, evidence: Session, p: Payload, f: Fragment)
    ensures forall c | c in DelegatedContributions(sessions, evidence, p, f) :: WellMade(c)
  {
    forall query, key ensures WellMade(MakeContribution(query, key, f)) {
      MadeWell(query, key, f);
    }
  }

  lemma AutomationWellMade(sessions: seq<Session>, evidence: Session, p: Payload, f: Fragment)
    ensures forall c | c in AutomationContributions(sessions, evidence, p, f) :: WellMade(c)
  {
    forall query, key ensures WellMade(MakeContribution(query, key, f)) {
      MadeWell(query, key, f);
    }
  }

  lemma FragmentWellMade(sessions: seq<Session>, f: Fragment, c: Contribution)
    requires c in Contributions(sessions, f)
    ensures WellMade(c)
  {
    var evidence, p := SessionById(sessions, f.session).value, f.payload.value;
    if p.automation {
      AutomationWellMade(sessions, evidence, p, f);
    } else {
      DelegatedWellMade(sessions, evidence, p, f);
    }
  }

  // ------------------------------------------------- the relation of an entry is that of the first contribution

  /** The first contribution that goes to an entry. */
  function FirstGoing(cs: seq<Contribution>, session: string, id: string): (first: Option<Contribution>)
    ensures first.Some? ==> first.value in cs && Goes(first.value, session, id)
  {
    if cs == [] then None
    else
      var before, last := FirstGoing(cs[..|cs| - 1], session, id), cs[|cs| - 1];
      if before.Some? then before else if Goes(last, session, id) then Some(last) else None
  }

  lemma {:induction false} EntryIsOfTheFirst(cs: seq<Contribution>, session: string, id: string)
    ensures var groups, first := MergeAll(map[], cs), FirstGoing(cs, session, id);
            && (Present(groups, session, id) <==> first.Some?)
            && (first.Some? ==> groups[session].entries[id].key == first.value.entry.key)
  {
    if cs != [] {
      EntryIsOfTheFirst(cs[..|cs| - 1], session, id);
    }
  }

  /** The status that the last of the contributions with one gives an entry. */
  function LastStatus(cs: seq<Contribution>, session: string, id: string): Option<string> {
    if cs == [] then None
    else
      var last := cs[|cs| - 1];
      if Goes(last, session, id) && last.entry.status.Some? then last.entry.status
      else LastStatus(cs[..|cs| - 1], session, id)
  }

  /** The tool reference that the first of the contributions with one gives an entry. */
  function FirstTool(cs: seq<Contribution>, session: string, id: string): Option<string> {
    if cs == [] then None
    else
      var before, last := FirstTool(cs[..|cs| - 1], session, id), cs[|cs| - 1];
      if before.Some? then before else if Goes(last, session, id) then last.entry.tool else None
  }

  /** What does depend on the order of the fragments: an entry has the last status and the first tool reference
      that a fragment gives it. */
  lemma {:induction false} LastStatusFirstTool(cs: seq<Contribution>, session: string, id: string)
    ensures var groups := MergeAll(map[], cs);
            && (Present(groups, session, id) ==>
                  && groups[session].entries[id].status == LastStatus(cs, session, id)
                  && groups[session].entries[id].tool == FirstTool(cs, session, id))
            && (!Present(groups, session, id) ==> LastStatus(cs, session, id).None? && FirstTool(cs, session, id).None?)
  {
    if cs != [] {
      LastStatusFirstTool(cs[..|cs| - 1], session, id);
    }
  }

  /** The fragments of an outbound entry are all among those of the entry that would answer it, and that entry
      is about the same delegation: the first contribution to it is. */
  ghost predicate Answered(cs: seq<Contribution>, c: Contribution)
    requires IsOutbound(c.entry)
  {
    var key := Facing(c.entry.key, Inbound);
    var first := FirstGoing(cs, key.child, EntryId(key.child, key));
    && first.Some? && first.value.entry.key == key
    && forall d | d in cs && Goes(d, c.session, c.entry.id) ::
      Refers(cs, key.child, EntryId(key.child, key), d.entry.refs)
  }

  ghost predicate Refers(cs: seq<Contribution>, session: string, id: string, refs: set<string>) {
    exists i :: i in cs && Goes(i, session, id) && i.entry.refs == refs
  }

  /** Every outbound contribution that is the first to its entry is answered. */
  ghost predicate AllAnswered(cs: seq<Contribution>) {
    forall c | c in cs && IsOutbound(c.entry) && FirstGoing(cs, c.session, c.entry.id) == Some(c) :: Answered(cs, c)
  }

  lemma AnsweredHasInbound(cs: seq<Contribution>, c: Contribution)
    requires IsOutbound(c.entry) && c.session == c.entry.key.parent && Answered(cs, c)
    requires FirstGoing(cs, c.session, c.entry.id) == Some(c)
    ensures var groups := MergeAll(map[], cs);
            Present(groups, c.session, c.entry.id) && IsOutbound(groups[c.session].entries[c.entry.id])
            && HasInbound(groups, c.session, groups[c.session].entries[c.entry.id])
  {
    var groups := MergeAll(map[], cs);
    var key := Facing(c.entry.key, Inbound);
    var id := EntryId(key.child, key);
    EntryIsOfTheFirst(cs, c.session, c.entry.id);
    EntryIsOfTheFirst(cs, key.child, id);
    EntriesSumUp(cs, c.session, c.entry.id);
    EntriesSumUp(cs, key.child, id);
    var e := groups[c.session].entries[c.entry.id];
    forall r | r in e.refs ensures r in groups[key.child].entries[id].refs {
      var d :| d in cs && Goes(d, c.session, c.entry.id) && r in d.entry.refs;
      assert Refers(cs, key.child, id, d.entry.refs);
    }
  }

  /** An entry is where its relation puts it. */
  lemma EntryIsAtItsId(cs: seq<Contribution>, session: string, id: string)
    requires (forall c | c in cs :: WellMade(c)) && Present(MergeAll(map[], cs), session, id)
    ensures id == EntryId(session, MergeAll(map[], cs)[session].entries[id].key)
  {
    EntryIsOfTheFirst(cs, session, id);
    assert WellMade(FirstGoing(cs, session, id).value);
  }

  lemma InboundReferences(cs: seq<Contribution>, session: string, id: string, d: Contribution)
    requires (forall c | c in cs :: WellMade(c)) && d in cs
    requires Present(MergeAll(map[], cs), session, id) && d.entry.refs <= MergeAll(map[], cs)[session].entries[id].refs
    ensures Refers(cs, session, id, d.entry.refs)
  {
    EntriesSumUp(cs, session, id);
    assert WellMade(d);
    var r :| d.entry.refs == {r};
    var i :| i in cs && Goes(i, session, id) && r in i.entry.refs;
    assert WellMade(i);
  }

  lemma HasInboundAnswers(cs: seq<Contribution>, c: Contribution)
    requires (forall x | x in cs :: WellMade(x)) && c in cs && IsOutbound(c.entry) && c.session == c.entry.key.parent
    requires FirstGoing(cs, c.session, c.entry.id) == Some(c) && Paired(MergeAll(map[], cs))
    ensures Answered(cs, c)
  {
    var groups := MergeAll(map[], cs);
    var key := Facing(c.entry.key, Inbound);
    EntryIsOfTheFirst(cs, c.session, c.entry.id);
    EntriesSumUp(cs, c.session, c.entry.id);
    var e := groups[c.session].entries[c.entry.id];
    assert HasInbound(groups, c.session, e);
    var id :| Present(groups, key.child, id) && groups[key.child].entries[id].key == key
              && e.refs <= groups[key.child].entries[id].refs;
    EntryIsAtItsId(cs, key.child, id);
    EntryIsOfTheFirst(cs, key.child, id);
    forall d | d in cs && Goes(d, c.session, c.entry.id) ensures Refers(cs, key.child, id, d.entry.refs) {
      assert d.entry.refs <= e.refs;
      InboundReferences(cs, key.child, id, d);
    }
  }

  /** Delegations pair up, for all sessions and fragments, exactly when every outbound contribution that makes
      an entry is answered: the inbound contribution for the same delegation makes the entry under the child, and
      every fragment that the outbound entry takes in goes there too. */
  lemma PairedIff(sessions: seq<Session>, fragments: seq<Fragment>)
    ensures Paired(MergeAll(map[], AllContributions(sessions, fragments)))
       <==> AllAnswered(AllContributions(sessions, fragments))
  {
    var cs := AllContributions(sessions, fragments);
    var groups := MergeAll(map[], cs);
    ContributionsWellMade(sessions, fragments);
    if Paired(groups) {
      forall c | c in cs && IsOutbound(c.entry) && FirstGoing(cs, c.session, c.entry.id) == Some(c)
        ensures Answered(cs, c)
      {
        var i := OutboundHasInbound(sessions, fragments, c);
        HasInboundAnswers(cs, c);
      }
    }
    if AllAnswered(cs) {
      forall s, id | Present(groups, s, id) && IsOutbound(groups[s].entries[id])
        ensures HasInbound(groups, s, groups[s].entries[id])
      {
        EntryIsOfTheFirst(cs, s, id);
        var c := FirstGoing(cs, s, id).value;
        var i := OutboundHasInbound(sessions, fragments, c);
        AnsweredHasInbound(cs, c);
      }
    }
  }

  /** In particular, when ids tell relations apart every outbound delegation has its inbound counterpart under
      the child, naming this parent and carrying all references of the outbound entry. */
  lemma DelegationsPairUp(sessions: seq<Session>, fragments: seq<Fragment>)
    requires Faithful(AllContributions(sessions, fragments))
    ensures Paired(MergeAll(map[], AllContributions(sessions, fragments)))
  {
    var cs := AllContributions(sessions, fragments);
    forall c | c in cs && IsOutbound(c.entry) ensures Answered(cs, c) {
      FaithfulIsAnswered(sessions, fragments, c);
    }
    PairedIff(sessions, fragments);
  }

  lemma FaithfulIsAnswered(sessions: seq<Session>, fragments: seq<Fragment>, c: Contribution)
    requires Faithful(AllContributions(sessions, fragments))
    requires c in AllContributions(sessions, fragments) && IsOutbound(c.entry)
    ensures Answered(AllContributions(sessions, fragments), c)
  {
    var cs := AllContributions(sessions, fragments);
    var i := OutboundHasInbound(sessions, fragments, c);
    EntriesSumUp(cs, i.session, i.entry.id);
    EntryIsOfTheFirst(cs, i.session, i.entry.id);
    assert Goes(i, i.session, i.entry.id);
    forall d | d in cs && Goes(d, c.session, c.entry.id) ensures Refers(cs, i.session, i.entry.id, d.entry.refs) {
      assert d.entry.key == c.entry.key;
      var j := OutboundHasInbound(sessions, fragments, d);
      assert Goes(j, i.session, i.entry.id);
    }
  }

  /** Every delegated fragment is referenced by the inbound entry under its child, and by the outbound
      entry under its parent if there is one. */
  lemma DelegationIsReferenced(sessions: seq<Session>, fragments: seq<Fragment>, f: Fragment)
    requires f in fragments && IsDelegation(sessions, f)
    ensures var groups := MergeAll(map[], AllContributions(sessions, fragments));
            forall c | c in Contributions(sessions, f) ::
              Present(groups, c.session, c.entry.id) && f.id in groups[c.session].entries[c.entry.id].refs
  {
    var cs := AllContributions(sessions, fragments);
    forall c | c in Contributions(sessions, f)
      ensures Present(MergeAll(map[], cs), c.session, c.entry.id)
      ensures f.id in MergeAll(map[], cs)[c.session].entries[c.entry.id].refs
    {
      ContributionOrigin(sessions, fragments, c);
      EntriesSumUp(cs, c.session, c.entry.id);
      DelegationContributes(sessions, f);
      assert Goes(c, c.session, c.entry.id);
    }
  }

  /** A sidechain of the child session whose payload names a parent. */
  function Sidechain(id: string, child: string, parent: string): Fragment {
    Fragment(id, true, child, 0, Some(Payload(false, true, Some(parent), None, None, None, None, None, None)))
  }

  lemma ResolvesToParent(sessions: seq<Session>, evidence: Session, k: nat)
    requires |sessions| == 3 && k < 3 && forall s | s in sessions :: s.source == evidence.source
    requires forall s | s in sessions :: Aliases(s) == {s.id}
    requires sessions[0].id != sessions[1].id && sessions[1].id != sessions[2].id && sessions[0].id != sessions[2].id
    ensures Resolve(sessions[k].id, evidence, sessions) == Some(sessions[k])
  {
    var p, q := Bears(sessions[k].id), OfSource(evidence.source);
    var a, b, c := sessions[0], sessions[1], sessions[2];
    assert a in sessions && b in sessions && c in sessions;
    FilterThree(sessions, p);
    assert Filter(sessions, p) == [sessions[k]];
    FilterAll([sessions[k]], q);
  }

  lemma FilterThree(xs: seq<Session>, p: Session -> bool)
    requires |xs| == 3
    ensures Filter(xs, p) == (if p(xs[0]) then [xs[0]] else []) + (if p(xs[1]) then [xs[1]] else [])
                             + (if p(xs[2]) then [xs[2]] else [])
  {
    FilterPush([], xs[0], p);
    FilterPush([] + [xs[0]], xs[1], p);
    FilterPush([] + [xs[0]] + [xs[1]], xs[2], p);
    assert xs == [] + [xs[0]] + [xs[1]] + [xs[2]];
  }

  /** What a sidechain gives the session that it is listed under. */
  function Given(to: Session, child: Session, parent: Session, dir: Direction, id: string): Contribution {
    MakeContribution(to, Delegated(parent.id, child.id, "", dir), Sidechain(id, child.id, parent.id))
  }

  /** What a sidechain of `child` that names the session `parent` contributes. */
  lemma SidechainContributes(sessions: seq<Session>, child: Session, parent: Session, id: string)
    requires SessionById(sessions, child.id) == Some(child) && Resolve(parent.id, child, sessions) == Some(parent)
    requires parent.id != child.id
    ensures Contributions(sessions, Sidechain(id, child.id, parent.id))
         == [Given(child, child, parent, Inbound, id), Given(parent, child, parent, Outbound, id)]
  {
  }

  lemma FoundById(a: Session, b: Session, c: Session)
    requires a.id != b.id && a.id != c.id
    ensures SessionById([a, b, c], a.id) == Some(a)
  {
    assert [a, b, c][..2] == [a, b] && [a, b][..1] == [a] && [a][..0] == [];
    assert SessionById([a], a.id) == Some(a);
    assert SessionById([a, b], a.id) == Some(a);
  }

  lemma TwoFragments(sessions: seq<Session>, f: Fragment, g: Fragment)
    ensures AllContributions(sessions, [f, g]) == Contributions(sessions, f) + Contributions(sessions, g)
  {
    FlatMapPair(f, g, ContributionsOf(sessions));
  }

  predicate Apart(child: Session, first: Session, second: Session) {
    && child.id != first.id && child.id != second.id && first.id != second.id
    && child.source == first.source == second.source
    && forall x | x in [child, first, second] :: Aliases(x) == {x.id}
  }

  /** Two sidechains of one child that name different parents. */
  lemma TwoSidechains(child: Session, first: Session, second: Session)
    requires Apart(child, first, second)
    ensures AllContributions([child, first, second],
                             [Sidechain("f", child.id, first.id), Sidechain("g", child.id, second.id)])
         == [Given(child, child, first, Inbound, "f"), Given(first, child, first, Outbound, "f"),
             Given(child, child, second, Inbound, "g"), Given(second, child, second, Outbound, "g")]
  {
    var sessions := [child, first, second];
    ResolvesToParent(sessions, child, 1);
    ResolvesToParent(sessions, child, 2);
    FoundById(child, first, second);
    SidechainContributes(sessions, child, first, "f");
    SidechainContributes(sessions, child, second, "g");
    TwoFragments(sessions, Sidechain("f", child.id, first.id), Sidechain("g", child.id, second.id));
  }

  /** Ids that do not tell relations apart break the pairing: two parents of one child whose ids differ
      in one replaced character (`a:b` and `a/b`, say) share the child's inbound entry, which names
      only the first of them. */
  lemma CollidingParentsUnpaired(child: Session, first: Session, second: Session, p: string, c: char, d: char,
                                 s: string)
    requires !CleanChar(c) && !CleanChar(d) && c != d && first.id == p + [c] + s && second.id == p + [d] + s
    requires child.id != first.id && child.id != second.id && child.source == first.source == second.source
    requires forall x | x in [child, first, second] :: Aliases(x) == {x.id}
    ensures var fragments := [Sidechain("f", child.id, first.id), Sidechain("g", child.id, second.id)];
            !Paired(MergeAll(map[], AllContributions([child, first, second], fragments)))
  {
    assert first.id[|p|] == c && second.id[|p|] == d;
    TwoSidechains(child, first, second);
    ParentsCollide(child.id, p, c, d, s, child.id, "", Inbound);
    var c1, d1 := Given(child, child, first, Inbound, "f"), Given(first, child, first, Outbound, "f");
    var c2, d2 := Given(child, child, second, Inbound, "g"), Given(second, child, second, Outbound, "g");
    TwoParentsUnpaired([c1, d1, c2, d2], c1, d1, c2, d2);
  }

  lemma TwoParentsUnpaired(cs: seq<Contribution>, c1: Contribution, d1: Contribution, c2: Contribution,
                           d2: Contribution)
    requires cs == [c1, d1, c2, d2]
    requires c1.session == c2.session && c1.entry.id == c2.entry.id && c1.entry.key != c2.entry.key
    requires d1.session != c1.session && d2.session != c1.session && d1.session != d2.session
    requires d2.entry.key.Delegated? && d2.entry.key.direction == Outbound && d2.entry.key.child == c1.session
    requires c1.entry.key.Delegated? && c1.entry.key.parent != d2.session
    ensures !Paired(MergeAll(map[], cs))
  {
    var groups := MergeAll(map[], cs);
    MergeAllPush(map[], [], c1);
    MergeAllPush(map[], [] + [c1], d1);
    MergeAllPush(map[], [] + [c1] + [d1], c2);
    MergeAllPush(map[], [] + [c1] + [d1] + [c2], d2);
    assert cs == [] + [c1] + [d1] + [c2] + [d2];
    assert groups == MergeInto(MergeInto(MergeInto(MergeInto(map[], c1), d1), c2), d2);
    assert Present(groups, d2.session, d2.entry.id) && groups[d2.session].entries[d2.entry.id] == d2.entry;
    assert groups[c1.session].entries.Keys == {c1.entry.id};
    assert groups[c1.session].entries[c1.entry.id].key == c1.entry.key;
    assert !HasInbound(groups, d2.session, d2.entry);
  }
}
