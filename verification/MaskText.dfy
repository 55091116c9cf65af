/** Masking a text by templates, reversibly. */
module MaskText {
  // Templates select regions by precedence, and the text is cut into segments that can be put together again.

  import opened Sequences
  import opened Sorting

  datatype Span = Span(start: nat, end: nat)

  /** What a template looks for. A regular expression is the list of ranges that it finds. */
  datatype Matcher = Prefix(pattern: string) | Contains(pattern: string) | Regex(found: seq<Span>)

  datatype Context = UserMessage | SystemMessage | AssistantReply | ToolInput | ToolOutput

  datatype Template = Template(
    id: string, caption: string, matcher: Matcher, collapse: bool, priority: int, active: bool, appliesTo: set<Context>)

  datatype Segment =
    | Plain(content: string)
    | Masked(content: string, caption: string, charCount: nat, template: string, original: string)

  /** A match of a template. */
  datatype Region = Region(span: Span, template: Template)

  predicate Inside(s: Span, text: string) {
    s.start < s.end <= |text|
  }

  /** A match covers something, unless there is nothing to cover: an empty prefix matches the empty text. */
  predicate Lies(s: Span, text: string) {
    Inside(s, text) || (text == "" && s == Span(0, 0))
  }

  /** What a regular expression may find: non-empty ranges of the text, in order, not overlapping. */
  predicate OrderedSpans(spans: seq<Span>, text: string) {
    && (forall i | 0 <= i < |spans| :: Inside(spans[i], text))
    && (forall i, j | 0 <= i < j < |spans| :: spans[i].end <= spans[j].start)
  }

  predicate MatcherOk(m: Matcher, text: string) {
    match m
    case Regex(found) => OrderedSpans(found, text)
    case Prefix(_) => true
    case Contains(pattern) => pattern != ""
  }

  // ------------------------------------------------- finding matches

  predicate Occurs(text: string, pattern: string, i: nat) {
    i + |pattern| <= |text| && text[i..i + |pattern|] == pattern
  }

  /** `text.indexOf(pattern, pos)`. */
  function IndexOf(text: string, pattern: string, pos: nat): (r: int)
    requires pos <= |text|
    ensures r == -1 || (pos <= r && Occurs(text, pattern, r))
    ensures forall i: nat | pos <= i && (r == -1 || i < r) :: !Occurs(text, pattern, i)
    decreases |text| - pos
  {
    if pos + |pattern| > |text| then -1
    else if Occurs(text, pattern, pos) then pos
    else if pos == |text| then -1
    else IndexOf(text, pattern, pos + 1)
  }

  const SEPARATORS: seq<string> := ["\n\n---\n\n", "\n---\n", "\n\n====\n\n", "\n====\n", "\n\nUser:", "\nUser:"]
  const MAX_PREFIX_LENGTH: nat := 5000

  /** Where the prefix section ends: after the first separator of the list that occurs at all, or
      after 5000 characters. */
  function PrefixEndFrom(text: string, k: nat): (r: nat)
    requires k <= |SEPARATORS|
    ensures r <= |text| && (text != "" ==> r > 0)
    decreases |SEPARATORS| - k
  {
    if k == |SEPARATORS| then (if |text| < MAX_PREFIX_LENGTH then |text| else MAX_PREFIX_LENGTH)
    else
      var at := IndexOf(text, SEPARATORS[k], 0);
      if at != -1 then at + |SEPARATORS[k]| else PrefixEndFrom(text, k + 1)
  }

  function ContainsMatches(text: string, pattern: string, pos: nat): seq<Span>
    requires pattern != "" && pos <= |text|
    decreases |text| - pos
  {
    var at := IndexOf(text, pattern, pos);
    if at == -1 then [] else [Span(at, at + |pattern|)] + ContainsMatches(text, pattern, at + |pattern|)
  }

  function Matches(text: string, m: Matcher): seq<Span>
    requires MatcherOk(m, text)
  {
    match m
    case Regex(found) => found
    case Prefix(pattern) => if pattern <= text then [Span(0, PrefixEndFrom(text, 0))] else []
    case Contains(pattern) => ContainsMatches(text, pattern, 0)
  }

  method FindMatches(text: string, m: Matcher) returns (matches: seq<Span>)
    requires MatcherOk(m, text)
    ensures matches == Matches(text, m)
  {
    matches := [];
    match m
    case Regex(found) => matches := found;
    case Prefix(pattern) =>
      if pattern <= text {
        matches := [Span(0, PrefixEndFrom(text, 0))];
      }
    case Contains(pattern) => matches := FindAll(text, pattern);
  }

  /** What is found and what is still to be found make up all matches. */
  predicate Finding(matches: seq<Span>, text: string, pattern: string, pos: nat) {
    pattern != "" && pos <= |text| && matches + ContainsMatches(text, pattern, pos) == ContainsMatches(text, pattern, 0)
  }

  lemma FindingStep(matches: seq<Span>, text: string, pattern: string, pos: nat, at: int)
    requires Finding(matches, text, pattern, pos) && at == IndexOf(text, pattern, pos) && at != -1
    ensures Finding(matches + [Span(at, at + |pattern|)], text, pattern, at + |pattern|)
  {
    ConcatAssoc(matches, [Span(at, at + |pattern|)], ContainsMatches(text, pattern, at + |pattern|));
  }

  lemma FindingEnd(matches: seq<Span>, text: string, pattern: string, pos: nat)
    requires Finding(matches, text, pattern, pos) && IndexOf(text, pattern, pos) == -1
    ensures matches == ContainsMatches(text, pattern, 0)
  {
    assert matches + [] == matches;
  }

  lemma FindingStart(text: string, pattern: string)
    requires pattern != ""
    ensures Finding([], text, pattern, 0)
  {
    assert [] + ContainsMatches(text, pattern, 0) == ContainsMatches(text, pattern, 0);
  }

  method FindAll(text: string, pattern: string) returns (matches: seq<Span>)
    requires pattern != ""
    ensures matches == ContainsMatches(text, pattern, 0)
  {
    matches := [];
    var pos: nat := 0;
    FindingStart(text, pattern);
    var at := IndexOf(text, pattern, pos);
    while at != -1
      invariant Finding(matches, text, pattern, pos) && at == IndexOf(text, pattern, pos)
      decreases |text| - pos
    {
      FindingStep(matches, text, pattern, pos, at);
      matches := matches + [Span(at, at + |pattern|)];
      pos := at + |pattern|;
      at := IndexOf(text, pattern, pos);
    }
    FindingEnd(matches, text, pattern, pos);
  }

  /** A match of a pattern, at or after a position. */
  predicate MatchFrom(s: Span, text: string, pattern: string, pos: nat) {
    pos <= s.start && s.end == s.start + |pattern| && Occurs(text, pattern, s.start)
  }

  lemma {:induction false} ContainsMatchesOrdered(text: string, pattern: string, pos: nat)
    requires pattern != "" && pos <= |text|
    ensures OrderedSpans(ContainsMatches(text, pattern, pos), text)
    ensures forall s | s in ContainsMatches(text, pattern, pos) :: MatchFrom(s, text, pattern, pos)
    decreases |text| - pos
  {
    var at := IndexOf(text, pattern, pos);
    if at != -1 {
      var first, rest := Span(at, at + |pattern|), ContainsMatches(text, pattern, at + |pattern|);
      ContainsMatchesOrdered(text, pattern, at + |pattern|);
      forall t | t in rest ensures first.end <= t.start && MatchFrom(t, text, pattern, pos) {
        assert MatchFrom(t, text, pattern, at + |pattern|);
      }
      assert MatchFrom(first, text, pattern, pos);
      OrderedCons(first, rest, text);
    }
  }

  lemma OrderedCons(s: Span, rest: seq<Span>, text: string)
    requires Inside(s, text) && OrderedSpans(rest, text) && forall t | t in rest :: s.end <= t.start
    ensures OrderedSpans([s] + rest, text)
  {
    assert forall i | 0 <= i < |rest| :: rest[i] in rest;
  }

  /** No occurrence escapes: each begins inside a match. */
  lemma {:induction false} OccurrencesAreCovered(text: string, pattern: string, pos: nat, i: nat)
    requires pattern != "" && pos <= i && Occurs(text, pattern, i)
    ensures exists s :: s in ContainsMatches(text, pattern, pos) && s.start <= i < s.end
    decreases |text| - pos
  {
    var at := IndexOf(text, pattern, pos);
    var s := Span(at, at + |pattern|);
    assert s in ContainsMatches(text, pattern, pos);
    if i >= at + |pattern| {
      OccurrencesAreCovered(text, pattern, at + |pattern|, i);
      var t :| t in ContainsMatches(text, pattern, at + |pattern|) && t.start <= i < t.end;
      assert t in ContainsMatches(text, pattern, pos);
    }
  }

  lemma MatchesLie(text: string, m: Matcher)
    requires MatcherOk(m, text)
    ensures forall i | 0 <= i < |Matches(text, m)| :: Lies(Matches(text, m)[i], text)
  {
    if m.Contains? {
      ContainsMatchesOrdered(text, m.pattern, 0);
    }
  }

  // ------------------------------------------------- choosing regions

  predicate Overlap(a: Span, b: Span) {
    !(a.end <= b.start || a.start >= b.end)
  }

  predicate Free(accepted: seq<Region>, s: Span) {
    forall i | 0 <= i < |accepted| :: !Overlap(s, accepted[i].span)
  }

  /** Greedy selection: a candidate is accepted if it overlaps nothing accepted before it. */
  function Greedy(candidates: seq<Region>): seq<Region> {
    if candidates == [] then []
    else
      var before := Greedy(candidates[..|candidates| - 1]);
      var c := candidates[|candidates| - 1];
      if Free(before, c.span) then before + [c] else before
  }

  function RegionsOf(text: string, t: Template): seq<Region>
    requires MatcherOk(t.matcher, text)
  {
    Map(Matches(text, t.matcher), (s: Span) => Region(s, t))
  }

  predicate AllOk(templates: seq<Template>, text: string) {
    forall t | t in templates :: MatcherOk(t.matcher, text)
  }

  /** The matches of all templates, in the order of the templates. */
  function Candidates(text: string, templates: seq<Template>): seq<Region>
    requires AllOk(templates, text)
  {
    if templates == [] then []
    else
      Candidates(text, templates[..|templates| - 1]) + RegionsOf(text, templates[|templates| - 1])
  }

  function ByPriority(): (Template, Template) -> bool {
    (a: Template, b: Template) => a.priority <= b.priority
  }

  function Applicable(templates: seq<Template>, context: Context): seq<Template> {
    StableSort(Filter(templates, (t: Template) => t.active && context in t.appliesTo), ByPriority())
  }

  predicate PairwiseDisjoint(regions: seq<Region>) {
    forall i, j | 0 <= i < j < |regions| :: !Overlap(regions[i].span, regions[j].span)
  }

  lemma {:induction false} GreedyIsDisjoint(candidates: seq<Region>)
    ensures PairwiseDisjoint(Greedy(candidates))
    ensures forall r | r in Greedy(candidates) :: r in candidates
  {
    if candidates != [] {
      GreedyIsDisjoint(candidates[..|candidates| - 1]);
    }
  }

  /** Greedy-maximal: a candidate is accepted, or it overlaps an accepted one that came before it. */
  lemma {:induction false} GreedyIsMaximal(candidates: seq<Region>, i: nat)
    requires i < |candidates|
    ensures candidates[i] in Greedy(candidates)
         || exists j :: 0 <= j < i && candidates[j] in Greedy(candidates)
                        && Overlap(candidates[i].span, candidates[j].span)
  {
    var n := |candidates| - 1;
    var before := Greedy(candidates[..n]);
    if i < n {
      GreedyIsMaximal(candidates[..n], i);
    } else if !Free(before, candidates[n].span) {
      var k :| 0 <= k < |before| && Overlap(candidates[n].span, before[k].span);
      GreedyIsDisjoint(candidates[..n]);
      assert before[k] in candidates[..n];
      var j :| 0 <= j < n && candidates[..n][j] == before[k];
      assert candidates[j] in Greedy(candidates);
    }
  }

  /** The order of the candidates is that of the priorities. */
  lemma {:induction false} CandidatesByPriority(text: string, templates: seq<Template>)
    requires AllOk(templates, text) && Sorted(templates, ByPriority())
    ensures var cs := Candidates(text, templates);
            && (forall c | c in cs :: c.template in templates && Lies(c.span, text))
            && (forall i, j | 0 <= i < j < |cs| :: cs[i].template.priority <= cs[j].template.priority)
  {
    if templates != [] {
      var n := |templates| - 1;
      var init, t := templates[..n], templates[n];
      CandidatesByPriority(text, init);
      MatchesLie(text, t.matcher);
      var before, last := Candidates(text, init), RegionsOf(text, t);
      forall c | c in before ensures c.template.priority <= t.priority {
        var k :| 0 <= k < n && templates[k] == c.template;
        assert ByPriority()(templates[k], templates[n]);
      }
      forall i | 0 <= i < |before| ensures before[i].template.priority <= t.priority {
        assert before[i] in before;
      }
    }
  }

  /** What is accepted and what is not: regions are disjoint, and a rejected match overlaps an accepted
      region of a template of equal or higher precedence (a priority that is not larger). */
  lemma MaskingIsGreedyMaximal(text: string, templates: seq<Template>, context: Context, m: Region)
    requires AllOk(templates, text)
    ensures AllOk(Applicable(templates, context), text)
    ensures var candidates := Candidates(text, Applicable(templates, context));
            var accepted := Greedy(candidates);
            && PairwiseDisjoint(accepted)
            && (m in candidates && m !in accepted ==>
                  exists r :: r in accepted && Overlap(m.span, r.span) && r.template.priority <= m.template.priority)
  {
    ApplicableTemplates(text, templates, context);
    var candidates := Candidates(text, Applicable(templates, context));
    GreedyIsDisjoint(candidates);
    CandidatesByPriority(text, Applicable(templates, context));
    if m in candidates && m !in Greedy(candidates) {
      var i :| 0 <= i < |candidates| && candidates[i] == m;
      GreedyIsMaximal(candidates, i);
      var j :| 0 <= j < i && candidates[j] in Greedy(candidates) && Overlap(candidates[i].span, candidates[j].span);
    }
  }

  lemma ApplicableTemplates(text: string, templates: seq<Template>, context: Context)
    requires AllOk(templates, text)
    ensures AllOk(Applicable(templates, context), text) && Sorted(Applicable(templates, context), ByPriority())
  {
    var chosen := Filter(templates, (t: Template) => t.active && context in t.appliesTo);
    StableSortSorts(chosen, ByPriority());
    StableSortMembers(chosen, ByPriority());
  }

  // ------------------------------------------------- cutting the text

  function SegmentOf(text: string, r: Region): Segment
    requires Lies(r.span, text)
  {
    var content := text[r.span.start..r.span.end];
    if r.template.collapse then
      Masked("[MASKED: " + r.template.caption + "]", r.template.caption, |content|, r.template.id, content)
    else Plain(content)
  }

  function ByStart(): (Region, Region) -> bool {
    (a: Region, b: Region) => a.span.start <= b.span.start
  }

  /** Regions in text order, not touching each other's inside. */
  predicate InTextOrder(regions: seq<Region>, text: string) {
    && (forall i | 0 <= i < |regions| :: Lies(regions[i].span, text))
    && (forall i, j | 0 <= i < j < |regions| :: regions[i].span.end <= regions[j].span.start)
  }

  /** The text of a segment with its mask lifted. */
  function Unmask(s: Segment): string {
    match s
    case Plain(content) => content
    case Masked(_, _, _, _, original) => original
  }

  function UnmaskAll(segments: seq<Segment>): string {
    if segments == [] then "" else UnmaskAll(segments[..|segments| - 1]) + Unmask(segments[|segments| - 1])
  }

  /** Every masked segment says how much it hides. */
  predicate Honest(s: Segment) {
    s.Masked? ==> s.charCount == |s.original| && s.content != ""
  }

  /** A mask with nothing behind it; its own text is then counted as original. */
  predicate Hollow(s: Segment) {
    s.Masked? && s.original == ""
  }

  /** `countOriginalChars`. */
  function CountOriginalChars(segments: seq<Segment>): nat {
    if segments == [] then 0
    else
      var s := segments[|segments| - 1];
      CountOriginalChars(segments[..|segments| - 1])
        + (if s.Masked? && s.original != "" then |s.original| else |s.content|)
  }

  /** The text that stays visible: `extractCanonicalText` before trimming. */
  function CanonicalText(segments: seq<Segment>): string {
    if segments == [] then ""
    else
      var s := segments[|segments| - 1];
      CanonicalText(segments[..|segments| - 1]) + (if s.Masked? then "" else s.content)
  }

  function HiddenChars(segments: seq<Segment>): nat {
    if segments == [] then 0
    else
      var s := segments[|segments| - 1];
      HiddenChars(segments[..|segments| - 1]) + (if s.Masked? then s.charCount else 0)
  }

  /** The characters of masks with nothing behind them. */
  function HollowChars(segments: seq<Segment>): nat {
    if segments == [] then 0
    else
      var s := segments[|segments| - 1];
      HollowChars(segments[..|segments| - 1]) + (if Hollow(s) then |s.content| else 0)
  }

  lemma {:induction false} HollowCharsIff(segments: seq<Segment>)
    requires forall s | s in segments :: Honest(s)
    ensures HollowChars(segments) == 0 <==> forall s | s in segments :: !Hollow(s)
  {
    if segments != [] {
      var init, last := segments[..|segments| - 1], segments[|segments| - 1];
      HollowCharsIff(init);
      assert forall s :: s in segments <==> s in init || s == last;
    }
  }

  /** Everything a caller relies on about the segments of a text. */
  ghost predicate Reversible(segments: seq<Segment>, text: string) {
    && UnmaskAll(segments) == text
    && (forall s | s in segments :: Honest(s))
    && CountOriginalChars(segments) == |text| + HollowChars(segments)
    && |CanonicalText(segments)| + HiddenChars(segments) == |text|
  }

  lemma Extend(segments: seq<Segment>, s: Segment, text: string, from: nat, to: nat)
    requires from <= to <= |text| && Reversible(segments, text[..from])
    requires Honest(s) && Unmask(s) == text[from..to]
    ensures Reversible(segments + [s], text[..to])
  {
    assert (segments + [s])[..|segments|] == segments;
    assert text[..from] + text[from..to] == text[..to];
  }

  /** The masked segments, in order, are those of the regions that collapse. */
  function MaskedOf(segments: seq<Segment>): seq<Segment> {
    Filter(segments, (s: Segment) => s.Masked?)
  }

  function CollapsedSegments(text: string, regions: seq<Region>): seq<Segment>
    requires forall r | r in regions :: Lies(r.span, text)
  {
    if regions == [] then []
    else
      var r := regions[|regions| - 1];
      CollapsedSegments(text, regions[..|regions| - 1]) + (if r.template.collapse then [SegmentOf(text, r)] else [])
  }

  /** The text between two positions, as a segment if there is any. */
  method AddPlain(segments: seq<Segment>, text: string, from: nat, to: nat) returns (segments': seq<Segment>)
    requires from <= to <= |text| && Reversible(segments, text[..from])
    ensures Reversible(segments', text[..to]) && MaskedOf(segments') == MaskedOf(segments)
    ensures segments' == if from < to then segments + [Plain(text[from..to])] else segments
  {
    segments' := segments;
    if to > from {
      Extend(segments, Plain(text[from..to]), text, from, to);
      FilterPush(segments, Plain(text[from..to]), (s: Segment) => s.Masked?);
      assert MaskedOf(segments) + [] == MaskedOf(segments);
      segments' := segments + [Plain(text[from..to])];
    }
  }

  lemma AddRegion(segments: seq<Segment>, text: string, r: Region)
    requires Lies(r.span, text) && Reversible(segments, text[..r.span.start])
    ensures var segments' := segments + [SegmentOf(text, r)];
            && Reversible(segments', text[..r.span.end])
            && MaskedOf(segments') == MaskedOf(segments) + (if r.template.collapse then [SegmentOf(text, r)] else [])
  {
    Extend(segments, SegmentOf(text, r), text, r.span.start, r.span.end);
    FilterPush(segments, SegmentOf(text, r), (s: Segment) => s.Masked?);
  }

  /** The first `i` regions are cut out, and the text up to `pos` is dealt with. */
  ghost predicate Cutting(segments: seq<Segment>, text: string, regions: seq<Region>, i: nat, pos: nat) {
    && InTextOrder(regions, text) && i <= |regions| && pos <= |text|
    && (i < |regions| ==> pos <= regions[i].span.start)
    && Reversible(segments, text[..pos])
    && MaskedOf(segments) == CollapsedSegments(text, regions[..i])
  }

  lemma CuttingNext(segments: seq<Segment>, text: string, regions: seq<Region>, i: nat)
    requires i < |regions| && InTextOrder(regions, text)
    requires Reversible(segments, text[..regions[i].span.start])
    requires MaskedOf(segments) == CollapsedSegments(text, regions[..i])
    ensures Cutting(segments + [SegmentOf(text, regions[i])], text, regions, i + 1, regions[i].span.end)
  {
    AddRegion(segments, text, regions[i]);
    assert regions[..i + 1][..i] == regions[..i];
    assert MaskedOf(segments) + [] == MaskedOf(segments);
  }

  method Cut(text: string, regions: seq<Region>) returns (segments: seq<Segment>)
    requires InTextOrder(regions, text)
    ensures Reversible(segments, text)
    ensures forall r | r in regions :: Lies(r.span, text)
    ensures MaskedOf(segments) == CollapsedSegments(text, regions)
  {
    segments := [];
    var pos: nat := 0;
    for i := 0 to |regions|
      invariant Cutting(segments, text, regions, i, pos)
    {
      var r := regions[i];
      segments := AddPlain(segments, text, pos, r.span.start);
      CuttingNext(segments, text, regions, i);
      segments := segments + [SegmentOf(text, r)];
      pos := r.span.end;
    }
    assert regions[..|regions|] == regions && text[..|text|] == text;
    segments := AddPlain(segments, text, pos, |text|);
  }

  lemma SortedRegionsInOrder(regions: seq<Region>, text: string)
    requires PairwiseDisjoint(regions) && forall r | r in regions :: Lies(r.span, text)
    ensures InTextOrder(StableSort(regions, ByStart()), text)
  {
    var sorted := StableSort(regions, ByStart());
    StableSortSorts(regions, ByStart());
    StableSortMembers(regions, ByStart());
    forall i | 0 <= i < |sorted| ensures Lies(sorted[i].span, text) {
      assert sorted[i] in sorted;
    }
    forall i, j | 0 <= i < j < |sorted| ensures sorted[i].span.end <= sorted[j].span.start {
      assert ByStart()(sorted[i], sorted[j]);
      assert sorted[i] in sorted && sorted[j] in sorted;
      if text != "" {
        DisjointPermutation(regions, sorted, i, j);
      }
    }
  }

  /** Disjointness does not depend on the order, even of equal regions: equal regions would overlap. */
  lemma DisjointPermutation(regions: seq<Region>, sorted: seq<Region>, i: nat, j: nat)
    requires PairwiseDisjoint(regions) && multiset(sorted) == multiset(regions) && i < j < |sorted|
    requires forall r | r in regions :: r.span.start < r.span.end
    ensures !Overlap(sorted[i].span, sorted[j].span)
  {
    SameMembers(sorted, regions);
    assert forall k | 0 <= k < |regions| :: regions[k] in regions;
    NoDuplicatesPermutation(regions, sorted);
    assert sorted[i] in regions && sorted[j] in regions;
    var a :| 0 <= a < |regions| && regions[a] == sorted[i];
    var b :| 0 <= b < |regions| && regions[b] == sorted[j];
  }

  // ------------------------------------------------- counting the original characters

  /** A collapsing template with an empty prefix, applied to the empty text: it masks nothing. */
  predicate MasksNothing(text: string, templates: seq<Template>) {
    text == "" && exists t :: t in templates && t.collapse && t.matcher == Prefix("")
  }

  lemma {:induction false} CollapsedMembers(text: string, regions: seq<Region>, s: Segment)
    requires forall r | r in regions :: Lies(r.span, text)
    ensures s in CollapsedSegments(text, regions)
       <==> exists r :: r in regions && r.template.collapse && s == SegmentOf(text, r)
  {
    if regions != [] {
      var init, last := regions[..|regions| - 1], regions[|regions| - 1];
      CollapsedMembers(text, init, s);
      assert forall r :: r in regions <==> r in init || r == last;
    }
  }

  /** In the empty text every match is accepted: none of them overlaps another. */
  lemma {:induction false} EmptyTextAcceptsAll(candidates: seq<Region>)
    requires forall c | c in candidates :: c.span == Span(0, 0)
    ensures Greedy(candidates) == candidates
  {
    if candidates != [] {
      EmptyTextAcceptsAll(candidates[..|candidates| - 1]);
      assert candidates == candidates[..|candidates| - 1] + [candidates[|candidates| - 1]];
      assert forall i | 0 <= i < |candidates| :: candidates[i] in candidates;
    }
  }

  lemma NothingFound(found: seq<Span>)
    requires OrderedSpans(found, "")
    ensures found == []
  {
    assert found != [] ==> Inside(found[0], "");
  }

  lemma EmptyTextMatches(t: Template)
    requires MatcherOk(t.matcher, "")
    ensures RegionsOf("", t) == if t.matcher == Prefix("") then [Region(Span(0, 0), t)] else []
  {
    if t.matcher.Regex? {
      NothingFound(t.matcher.found);
    }
  }

  lemma {:induction false} EmptyTextCandidates(templates: seq<Template>, c: Region)
    requires AllOk(templates, "")
    ensures c in Candidates("", templates)
       <==> c.span == Span(0, 0) && c.template in templates && c.template.matcher == Prefix("")
  {
    if templates != [] {
      var init, last := templates[..|templates| - 1], templates[|templates| - 1];
      assert forall t :: t in templates <==> t in init || t == last;
      EmptyTextCandidates(init, c);
      EmptyTextMatches(last);
    }
  }

  predicate MasksOnlyAir(r: Region) {
    r.template.collapse && r.span.start == r.span.end
  }

  /** Some accepted region masks nothing exactly when there is such a template. */
  lemma HollowRegionIff(text: string, templates: seq<Template>)
    requires AllOk(templates, text)
    requires forall c | c in Candidates(text, templates) :: Lies(c.span, text)
    ensures (exists r :: r in Greedy(Candidates(text, templates)) && MasksOnlyAir(r))
       <==> MasksNothing(text, templates)
  {
    var candidates := Candidates(text, templates);
    GreedyIsDisjoint(candidates);
    if text == "" {
      forall c | c in candidates ensures c.span == Span(0, 0) {
        EmptyTextCandidates(templates, c);
      }
      EmptyTextAcceptsAll(candidates);
      if r :| r in candidates && r.template.collapse {
        EmptyTextCandidates(templates, r);
      }
      if t :| t in templates && t.collapse && t.matcher == Prefix("") {
        EmptyTextCandidates(templates, Region(Span(0, 0), t));
      }
    }
  }

  lemma HollowSegmentIff(text: string, regions: seq<Region>, segments: seq<Segment>)
    requires (forall r | r in regions :: Lies(r.span, text)) && MaskedOf(segments) == CollapsedSegments(text, regions)
    ensures (exists s :: s in segments && Hollow(s)) <==> exists r :: r in regions && MasksOnlyAir(r)
  {
    if s :| s in segments && Hollow(s) {
      assert s in MaskedOf(segments);
      CollapsedMembers(text, regions, s);
    }
    if r :| r in regions && MasksOnlyAir(r) {
      var s := SegmentOf(text, r);
      CollapsedMembers(text, regions, s);
      assert s in MaskedOf(segments) && Hollow(s);
    }
  }

  /** The counted characters are those of the text exactly when no template masks nothing. */
  lemma CountIsLengthIff(text: string, templates: seq<Template>, regions: seq<Region>, segments: seq<Segment>)
    requires AllOk(templates, text) && forall c | c in Candidates(text, templates) :: Lies(c.span, text)
    requires forall r :: r in regions <==> r in Greedy(Candidates(text, templates))
    requires (forall r | r in regions :: Lies(r.span, text)) && Reversible(segments, text)
    requires MaskedOf(segments) == CollapsedSegments(text, regions)
    ensures CountOriginalChars(segments) == |text| <==> !MasksNothing(text, templates)
  {
    HollowRegionIff(text, templates);
    HollowSegmentIff(text, regions, segments);
    HollowCharsIff(segments);
  }

  // ------------------------------------------------- applyMasks

  lemma GreedyNext(before: seq<Region>, regions: seq<Region>, k: nat)
    requires k < |regions|
    ensures var accepted := Greedy(before + regions[..k]);
            Greedy(before + regions[..k + 1])
              == if Free(accepted, regions[k].span) then accepted + [regions[k]] else accepted
  {
    var next := before + regions[..k + 1];
    assert next[..|next| - 1] == before + regions[..k] && next[|next| - 1] == regions[k];
  }

  /** The matches of one template, after what the templates before it got. */
  method SelectFrom(text: string, t: Template, accepted: seq<Region>, ghost before: seq<Region>)
    returns (accepted': seq<Region>)
    requires MatcherOk(t.matcher, text) && accepted == Greedy(before)
    ensures accepted' == Greedy(before + RegionsOf(text, t))
  {
    accepted' := accepted;
    var matches := FindMatches(text, t.matcher);
    ghost var regions := RegionsOf(text, t);
    assert before + regions[..0] == before;
    for k := 0 to |matches|
      invariant accepted' == Greedy(before + regions[..k])
    {
      var s := matches[k];
      GreedyNext(before, regions, k);
      if Free(accepted', s) {
        accepted' := accepted' + [Region(s, t)];
      }
    }
    assert regions[..|matches|] == regions;
  }

  method SelectRegions(text: string, templates: seq<Template>) returns (accepted: seq<Region>)
    requires AllOk(templates, text)
    ensures accepted == Greedy(Candidates(text, templates))
  {
    accepted := [];
    for i := 0 to |templates|
      invariant accepted == Greedy(Candidates(text, templates[..i]))
    {
      assert templates[..i + 1][..i] == templates[..i];
      accepted := SelectFrom(text, templates[i], accepted, Candidates(text, templates[..i]));
    }
    assert templates[..|templates|] == templates;
  }

  /** `applyMasks`. */
  method ApplyMasks(text: string, templates: seq<Template>, context: Context)
    returns (segments: seq<Segment>, ghost accepted: seq<Region>)
    requires AllOk(templates, text)
    ensures AllOk(Applicable(templates, context), text)
    ensures accepted == Greedy(Candidates(text, Applicable(templates, context)))
    ensures Reversible(segments, text) && segments != []
    ensures InTextOrder(StableSort(accepted, ByStart()), text)
    ensures forall r | r in StableSort(accepted, ByStart()) :: Lies(r.span, text)
    ensures MaskedOf(segments) == CollapsedSegments(text, StableSort(accepted, ByStart()))
    ensures CountOriginalChars(segments) == |text| <==> !MasksNothing(text, Applicable(templates, context))
  {
    ApplicableTemplates(text, templates, context);
    var applicable := Applicable(templates, context);
    CandidatesByPriority(text, applicable);
    GreedyIsDisjoint(Candidates(text, applicable));
    var regions := SelectRegions(text, applicable);
    accepted := regions;
    SortedRegionsInOrder(regions, text);
    segments := Cut(text, StableSort(regions, ByStart()));
    if |segments| == 0 {
      segments := [Plain(text)];
      assert segments[..0] == [];
    }
    StableSortMembers(regions, ByStart());
    CountIsLengthIff(text, applicable, StableSort(regions, ByStart()), segments);
  }
}
