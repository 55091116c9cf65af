/** `closestMatches`: the suggestions for a mistyped command. */
module Suggestions {
  import opened CodeUnits
  import opened Sequences
  import opened Sorting
  import opened EditDistance

  datatype Entry = Entry(candidate: Text, distance: nat, prefixMatch: bool)

  predicate Kept(e: Entry) {
    e.distance <= 2 || (e.prefixMatch && e.distance <= 3)
  }

  /** Nearer first; at equal distance, prefix matches first. */
  predicate EntryLe(a: Entry, b: Entry) {
    if a.distance != b.distance then a.distance < b.distance else a.prefixMatch || !b.prefixMatch
  }

  function ByRank(): (Entry, Entry) -> bool {
    (a: Entry, b: Entry) => EntryLe(a, b)
  }

  function MakeEntry(target: Text, lower: Text -> Text, candidate: Text): Entry {
    Entry(candidate, Distance(lower(target), lower(candidate)),
          lower(target) <= lower(candidate) && |lower(target)| > 0)
  }

  function Entries(target: Text, lower: Text -> Text, candidates: seq<Text>): seq<Entry> {
    Map(candidates, (c: Text) => MakeEntry(target, lower, c))
  }

  /** The candidates worth suggesting, best first, before the cut to the limit. */
  function Ranked(target: Text, lower: Text -> Text, candidates: seq<Text>): seq<Entry> {
    StableSort(Filter(Entries(target, lower, candidates), (e: Entry) => Kept(e)), ByRank())
  }

  function Prefix<T>(xs: seq<T>, n: nat): seq<T> {
    if |xs| <= n then xs else xs[..n]
  }

  /** `lower` is the case folding that the comparison uses. */
  method ClosestMatches(target: Text, lower: Text -> Text, candidates: seq<Text>, limit: nat)
    returns (matches: seq<Text>)
    ensures matches == Map(Prefix(Ranked(target, lower, candidates), limit), (e: Entry) => e.candidate)
  {
    var entries := [];
    for i := 0 to |candidates|
      invariant entries == Entries(target, lower, candidates)[..i]
    {
      var distance := Levenshtein(lower(target), lower(candidates[i]));
      var prefixMatch := lower(target) <= lower(candidates[i]) && |lower(target)| > 0;
      entries := entries + [Entry(candidates[i], distance, prefixMatch)];
    }
    assert entries == Entries(target, lower, candidates);
    var ranked := StableSort(Filter(entries, (e: Entry) => Kept(e)), ByRank());
    matches := Map(Prefix(ranked, limit), (e: Entry) => e.candidate);
  }

  lemma RankIsTotal()
    ensures TotalPreorder(ByRank())
  {
    var le := ByRank();
    forall a, b, c | le(a, b) && le(b, c) ensures le(a, c) {
      assert EntryLe(a, b) && EntryLe(b, c);
    }
  }

  /** Exactly the candidates within distance 2, or 3 for completions of the target, are ranked. */
  lemma RankedMembers(target: Text, lower: Text -> Text, candidates: seq<Text>, e: Entry)
    ensures e in Ranked(target, lower, candidates)
       <==> Kept(e) && e.candidate in candidates && e == MakeEntry(target, lower, e.candidate)
  {
    var entries := Entries(target, lower, candidates);
    RankIsTotal();
    StableSortMembers(Filter(entries, (x: Entry) => Kept(x)), ByRank());
    if e.candidate in candidates && e == MakeEntry(target, lower, e.candidate) {
      var i :| 0 <= i < |candidates| && candidates[i] == e.candidate;
      assert entries[i] == e;
    }
    if e in entries {
      var i :| 0 <= i < |entries| && entries[i] == e;
      assert candidates[i] in candidates;
    }
  }

  /** A candidate is kept exactly when at most two single-character edits reach it, or when it
      completes the non-empty target with at most three more characters. */
  lemma KeptIffNear(target: Text, lower: Text -> Text, candidates: seq<Text>, candidate: Text)
    requires candidate in candidates
    ensures MakeEntry(target, lower, candidate) in Ranked(target, lower, candidates)
       <==>
       || (exists steps :: EditScript(steps, lower(target), lower(candidate)) && |steps| - 1 <= 2)
       || (lower(target) <= lower(candidate) && |lower(target)| > 0 && |lower(candidate)| - |lower(target)| <= 3)
  {
    RankedMembers(target, lower, candidates, MakeEntry(target, lower, candidate));
    DistanceIsLeastEdits(lower(target), lower(candidate), 2);
    PrefixDistance(lower(target), lower(candidate));
  }

  /** A text that another one completes is as far from it as it is shorter. */
  lemma PrefixDistance(t: Text, c: Text)
    ensures t <= c ==> Distance(t, c) == |c| - |t|
  {
    if t <= c {
      assert c == t + c[|t|..];
      DistanceToCompletion(t, c[|t|..]);
    }
  }

  /** The cut keeps the best: what is left out ranks no better than anything that stays. */
  lemma CutKeepsTheBest(target: Text, lower: Text -> Text, candidates: seq<Text>, limit: nat, kept: Entry, cut: Entry)
    requires kept in Prefix(Ranked(target, lower, candidates), limit)
    requires cut in Ranked(target, lower, candidates) && cut !in Prefix(Ranked(target, lower, candidates), limit)
    ensures |Prefix(Ranked(target, lower, candidates), limit)| == limit
    ensures EntryLe(kept, cut)
  {
    var ranked := Ranked(target, lower, candidates);
    RankIsTotal();
    StableSortSorts(Filter(Entries(target, lower, candidates), (x: Entry) => Kept(x)), ByRank());
    var i :| 0 <= i < |Prefix(ranked, limit)| && Prefix(ranked, limit)[i] == kept;
    var j :| 0 <= j < |ranked| && ranked[j] == cut;
    assert j >= |Prefix(ranked, limit)| by {
      assert forall k | 0 <= k < |Prefix(ranked, limit)| :: Prefix(ranked, limit)[k] == ranked[k];
    }
    assert ByRank()(ranked[i], ranked[j]);
  }
}
