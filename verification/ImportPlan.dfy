/** Planning an import and carrying it out. */
module ImportPlan {
  // Checksums, files and the store are oracles: a digest function, a preparation that may fail, and a map
  // from source id to payload.

  import opened Options
  import opened Sequences
  import Json = CanonicalJson

  datatype Payload = Payload(source: string, content: string)

  datatype ConflictMode = OnError | OnSkip | OnReplace

  datatype Action = Import | Replace | Skip | Conflict

  datatype Reason = NewSource | IdenticalPayload | ConflictSkip | ConflictReplace | ConflictError

  datatype PlanEntry = PlanEntry(source: string, action: Action, reason: Reason)

  datatype Plan = Plan(
    entries: seq<PlanEntry>, imported: seq<string>, replaced: seq<string>, skipped: seq<string>,
    conflicting: seq<string>, wouldFail: bool)

  datatype Error = BundleChanged | MissingChecksum(source: string) | SourceConflict(source: string)
                 | PreparationFailed(source: string) | WriteFailed(source: string)

  datatype Result<+T> = Ok(value: T) | Err(error: Error)

  /** What `checksums.json` says: the digests of the payloads, and the whole as a JSON value. */
  datatype Checksums = Checksums(bySource: map<string, string>, json: Json.Value)

  /** A digest that is there: the empty string counts as missing. */
  predicate HasChecksum(checksums: Checksums, source: string) {
    source in checksums.bySource && checksums.bySource[source] != ""
  }

  // ------------------------------------------------- the decision for one source

  function Stored(payloads: map<string, Payload>, source: string): Option<Payload> {
    if source in payloads then Some(payloads[source]) else None
  }

  /** The action for one source, and why. */
  function EntryFor(payloads: map<string, Payload>, digest: Payload -> string, checksums: Checksums,
                    mode: ConflictMode, source: string): PlanEntry
    requires HasChecksum(checksums, source)
  {
    if source !in payloads then PlanEntry(source, Import, NewSource)
    else if digest(payloads[source]) == checksums.bySource[source] then PlanEntry(source, Skip, IdenticalPayload)
    else match mode
      case OnSkip => PlanEntry(source, Skip, ConflictSkip)
      case OnReplace => PlanEntry(source, Replace, ConflictReplace)
      case OnError => PlanEntry(source, Conflict, ConflictError)
  }

  function EntriesFor(payloads: map<string, Payload>, digest: Payload -> string, checksums: Checksums,
                      mode: ConflictMode, sources: seq<string>): seq<PlanEntry>
    requires forall s | s in sources :: HasChecksum(checksums, s)
  {
    if sources == [] then []
    else
      EntriesFor(payloads, digest, checksums, mode, sources[..|sources| - 1])
      + [EntryFor(payloads, digest, checksums, mode, sources[|sources| - 1])]
  }

  function SourceOf(): PlanEntry -> string {
    (e: PlanEntry) => e.source
  }

  function SourcesOf(incoming: seq<Payload>): seq<string> {
    Map(incoming, (p: Payload) => p.source)
  }

  function HasAction(action: Action): PlanEntry -> bool {
    (e: PlanEntry) => e.action == action
  }

  function IsWrite(): PlanEntry -> bool {
    (e: PlanEntry) => e.action == Import || e.action == Replace
  }

  /** The sources with an action, in plan order. */
  function WithAction(entries: seq<PlanEntry>, action: Action): seq<string> {
    Map(Filter(entries, HasAction(action)), SourceOf())
  }

  function PlanOf(entries: seq<PlanEntry>): Plan {
    Plan(entries, WithAction(entries, Import), WithAction(entries, Replace), WithAction(entries, Skip),
         WithAction(entries, Conflict), WithAction(entries, Conflict) != [])
  }

  /** The first source without a checksum. */
  function FirstMissing(checksums: Checksums, sources: seq<string>): Option<string> {
    if sources == [] then None
    else if !HasChecksum(checksums, sources[0]) then Some(sources[0])
    else FirstMissing(checksums, sources[1..])
  }

  lemma {:induction false} NoneMissing(checksums: Checksums, sources: seq<string>)
    ensures FirstMissing(checksums, sources).None? <==> forall s | s in sources :: HasChecksum(checksums, s)
  {
    if sources != [] {
      NoneMissing(checksums, sources[1..]);
      assert forall s :: s in sources <==> s == sources[0] || s in sources[1..];
    }
  }

  /** Whether an earlier import of this bundle had other checksums. */
  predicate Changed(known: Option<Json.Value>, checksums: Checksums) {
    known.Some? && Json.Stringify(known.value) != Json.Stringify(checksums.json)
  }

  /** The plan for the sources in turn, or the first source without a checksum. */
  function PlanSources(payloads: map<string, Payload>, digest: Payload -> string, checksums: Checksums,
                       mode: ConflictMode, sources: seq<string>): Result<Plan>
  {
    var missing := FirstMissing(checksums, sources);
    if missing.Some? then Err(MissingChecksum(missing.value))
    else NoneMissing(checksums, sources); Ok(PlanOf(EntriesFor(payloads, digest, checksums, mode, sources)))
  }

  /** What both planners compute. */
  function PlanImport(known: Option<Json.Value>, payloads: map<string, Payload>, digest: Payload -> string,
                      checksums: Checksums, mode: ConflictMode, sources: seq<string>): (result: Result<Plan>)
    ensures result.Ok? ==> (result.value.wouldFail <==> result.value.conflicting != [])
  {
    if Changed(known, checksums) then Err(BundleChanged) else PlanSources(payloads, digest, checksums, mode, sources)
  }

  // ------------------------------------------------- the lists of a plan

  lemma WithActionPush(entries: seq<PlanEntry>, e: PlanEntry, action: Action)
    ensures WithAction(entries + [e], action)
         == if e.action == action then WithAction(entries, action) + [e.source] else WithAction(entries, action)
  {
    FilterPush(entries, e, HasAction(action));
    var kept := Filter(entries, HasAction(action));
    assert Map(kept + [e], SourceOf()) == Map(kept, SourceOf()) + [e.source];
    assert kept + [] == kept;
    assert WithAction(entries, action) + [] == WithAction(entries, action);
  }

  /** One more entry: it goes last, and its source goes last on the list of its action. */
  function Grown(plan: Plan, e: PlanEntry): Plan {
    var entries := plan.entries + [e];
    match e.action
    case Import => plan.(entries := entries, imported := plan.imported + [e.source])
    case Replace => plan.(entries := entries, replaced := plan.replaced + [e.source])
    case Skip => plan.(entries := entries, skipped := plan.skipped + [e.source])
    case Conflict => plan.(entries := entries, conflicting := plan.conflicting + [e.source], wouldFail := true)
  }

  lemma PlanPush(entries: seq<PlanEntry>, e: PlanEntry)
    ensures PlanOf(entries + [e]) == Grown(PlanOf(entries), e)
  {
    WithActionPush(entries, e, Import);
    WithActionPush(entries, e, Replace);
    WithActionPush(entries, e, Skip);
    WithActionPush(entries, e, Conflict);
  }

  /** The planners have dealt with the first `i` sources, and none of those lacks a checksum. */
  ghost predicate Planned(payloads: map<string, Payload>, digest: Payload -> string, checksums: Checksums,
                          mode: ConflictMode, sources: seq<string>, i: nat, plan: Plan)
  {
    && i <= |sources| && (forall s | s in sources[..i] :: HasChecksum(checksums, s))
    && FirstMissing(checksums, sources) == FirstMissing(checksums, sources[i..])
    && plan == PlanOf(EntriesFor(payloads, digest, checksums, mode, sources[..i]))
  }

  lemma PlannedFirst(payloads: map<string, Payload>, digest: Payload -> string, checksums: Checksums,
                     mode: ConflictMode, sources: seq<string>)
    ensures Planned(payloads, digest, checksums, mode, sources, 0, Plan([], [], [], [], [], false))
  {
    assert sources[..0] == [] && sources[0..] == sources;
    assert WithAction([], Import) == [] && WithAction([], Replace) == [];
    assert WithAction([], Skip) == [] && WithAction([], Conflict) == [];
  }

  lemma PlannedStop(payloads: map<string, Payload>, digest: Payload -> string, checksums: Checksums,
                    mode: ConflictMode, sources: seq<string>, i: nat, plan: Plan)
    requires Planned(payloads, digest, checksums, mode, sources, i, plan)
    requires i < |sources| && !HasChecksum(checksums, sources[i])
    ensures PlanSources(payloads, digest, checksums, mode, sources) == Err(MissingChecksum(sources[i]))
  {
    assert sources[i..][0] == sources[i];
  }

  lemma PlannedNext(payloads: map<string, Payload>, digest: Payload -> string, checksums: Checksums,
                    mode: ConflictMode, sources: seq<string>, i: nat, plan: Plan, e: PlanEntry)
    requires Planned(payloads, digest, checksums, mode, sources, i, plan)
    requires i < |sources| && HasChecksum(checksums, sources[i])
    requires e == EntryFor(payloads, digest, checksums, mode, sources[i])
    ensures Planned(payloads, digest, checksums, mode, sources, i + 1, Grown(plan, e))
  {
    PlanPush(plan.entries, e);
    assert sources[i..][0] == sources[i] && sources[i..][1..] == sources[i + 1..];
    assert sources[..i + 1][..i] == sources[..i];
    assert forall s :: s in sources[..i + 1] <==> s in sources[..i] || s == sources[i];
  }

  lemma PlannedLast(payloads: map<string, Payload>, digest: Payload -> string, checksums: Checksums,
                    mode: ConflictMode, sources: seq<string>, plan: Plan)
    requires Planned(payloads, digest, checksums, mode, sources, |sources|, plan)
    ensures PlanSources(payloads, digest, checksums, mode, sources) == Ok(plan)
  {
    assert sources[..|sources|] == sources;
  }

  /** `planBundleImportFromPayloads`: the sources are those of the payloads at hand, and a stored payload
      is loaded and digested. */
  method PlanFromPayloads(known: Option<Json.Value>, store: map<string, Payload>, digest: Payload -> string,
                          checksums: Checksums, mode: ConflictMode, incoming: seq<Payload>)
    returns (result: Result<Plan>)
    ensures result == PlanImport(known, store, digest, checksums, mode, SourcesOf(incoming))
  {
    if Changed(known, checksums) {
      return Err(BundleChanged);
    }
    ghost var sources := SourcesOf(incoming);
    var plan := Plan([], [], [], [], [], false);
    PlannedFirst(store, digest, checksums, mode, sources);
    for i := 0 to |incoming|
      invariant Planned(store, digest, checksums, mode, sources, i, plan)
    {
      var source := incoming[i].source;
      var stored := Stored(store, source);
      if !HasChecksum(checksums, source) {
        PlannedStop(store, digest, checksums, mode, sources, i, plan);
        return Err(MissingChecksum(source));
      }
      var checksum := checksums.bySource[source];
      var entries, plan' := plan.entries, plan;
      ghost var e := EntryFor(store, digest, checksums, mode, source);
      if stored.None? {
        plan' := plan.(entries := entries + [PlanEntry(source, Import, NewSource)],
                       imported := plan.imported + [source]);
      } else if digest(stored.value) == checksum {
        plan' := plan.(entries := entries + [PlanEntry(source, Skip, IdenticalPayload)],
                       skipped := plan.skipped + [source]);
      } else if mode == OnSkip {
        plan' := plan.(entries := entries + [PlanEntry(source, Skip, ConflictSkip)],
                       skipped := plan.skipped + [source]);
      } else if mode == OnReplace {
        plan' := plan.(entries := entries + [PlanEntry(source, Replace, ConflictReplace)],
                       replaced := plan.replaced + [source]);
      } else {
        plan' := plan.(entries := entries + [PlanEntry(source, Conflict, ConflictError)],
                       conflicting := plan.conflicting + [source], wouldFail := true);
      }
      PlannedNext(store, digest, checksums, mode, sources, i, plan, e);
      plan := plan';
    }
    PlannedLast(store, digest, checksums, mode, sources, plan);
    result := Ok(plan);
  }

  /** `planBundleImportFromManifest`: the sources are those that the manifest lists, a source is looked up
      in the store's list of sources, and a stored payload is digested as it streams. */
  method PlanFromManifest(known: Option<Json.Value>, store: map<string, Payload>, listed: seq<string>,
                          streamed: Payload -> string, checksums: Checksums, mode: ConflictMode, sources: seq<string>)
    returns (result: Result<Plan>)
    requires forall s :: s in listed <==> s in store
    ensures result == PlanImport(known, store, streamed, checksums, mode, sources)
  {
    if Changed(known, checksums) {
      return Err(BundleChanged);
    }
    var plan := Plan([], [], [], [], [], false);
    PlannedFirst(store, streamed, checksums, mode, sources);
    for i := 0 to |sources|
      invariant Planned(store, streamed, checksums, mode, sources, i, plan)
    {
      var source := sources[i];
      if !HasChecksum(checksums, source) {
        PlannedStop(store, streamed, checksums, mode, sources, i, plan);
        return Err(MissingChecksum(source));
      }
      var checksum := checksums.bySource[source];
      var entries, plan' := plan.entries, plan;
      ghost var e := EntryFor(store, streamed, checksums, mode, source);
      if source !in listed {
        plan' := plan.(entries := entries + [PlanEntry(source, Import, NewSource)],
                       imported := plan.imported + [source]);
      } else if streamed(store[source]) == checksum {
        plan' := plan.(entries := entries + [PlanEntry(source, Skip, IdenticalPayload)],
                       skipped := plan.skipped + [source]);
      } else if mode == OnSkip {
        plan' := plan.(entries := entries + [PlanEntry(source, Skip, ConflictSkip)],
                       skipped := plan.skipped + [source]);
      } else if mode == OnReplace {
        plan' := plan.(entries := entries + [PlanEntry(source, Replace, ConflictReplace)],
                       replaced := plan.replaced + [source]);
      } else {
        plan' := plan.(entries := entries + [PlanEntry(source, Conflict, ConflictError)],
                       conflicting := plan.conflicting + [source], wouldFail := true);
      }
      PlannedNext(store, streamed, checksums, mode, sources, i, plan, e);
      plan := plan';
    }
    PlannedLast(store, streamed, checksums, mode, sources, plan);
    result := Ok(plan);
  }

  lemma {:induction false} EntriesAgree(store: map<string, Payload>, d: Payload -> string, d': Payload -> string,
                                        checksums: Checksums, mode: ConflictMode, sources: seq<string>)
    requires forall s | s in sources :: HasChecksum(checksums, s)
    requires forall s | s in store :: d(store[s]) == d'(store[s])
    ensures EntriesFor(store, d, checksums, mode, sources) == EntriesFor(store, d', checksums, mode, sources)
  {
    if sources != [] {
      EntriesAgree(store, d, d', checksums, mode, sources[..|sources| - 1]);
    }
  }

  lemma {:induction false} PlanNamesSources(store: map<string, Payload>, d: Payload -> string, checksums: Checksums,
                                            mode: ConflictMode, sources: seq<string>)
    requires forall s | s in sources :: HasChecksum(checksums, s)
    ensures Map(EntriesFor(store, d, checksums, mode, sources), SourceOf()) == sources
  {
    EntriesMembers(store, d, checksums, mode, sources);
    forall i | 0 <= i < |sources|
      ensures EntryFor(store, d, checksums, mode, sources[i]).source == sources[i]
    {
      EntryNamesSource(store, d, checksums, mode, sources[i]);
    }
  }

  /** The planner over payloads takes its sources from inside the files, the one over the manifest from the
      manifest. Given equal digests of what is stored, they answer alike exactly when the bundle is rejected as
      changed, or the same source is the first without a checksum, or all have one and both lists are the same. */
  lemma PlannersAgreeIff(known: Option<Json.Value>, store: map<string, Payload>, d: Payload -> string,
                         d': Payload -> string, checksums: Checksums, mode: ConflictMode, incoming: seq<Payload>,
                         sources: seq<string>)
    requires forall s | s in store :: d(store[s]) == d'(store[s])
    ensures (PlanImport(known, store, d, checksums, mode, SourcesOf(incoming))
              == PlanImport(known, store, d', checksums, mode, sources))
       <==> || Changed(known, checksums)
            || (&& FirstMissing(checksums, SourcesOf(incoming)) == FirstMissing(checksums, sources)
                && (FirstMissing(checksums, sources).None? ==> SourcesOf(incoming) == sources))
  {
    var named := SourcesOf(incoming);
    NoneMissing(checksums, named);
    NoneMissing(checksums, sources);
    if FirstMissing(checksums, named).None? {
      PlanNamesSources(store, d, checksums, mode, named);
    }
    if FirstMissing(checksums, sources).None? {
      PlanNamesSources(store, d', checksums, mode, sources);
      EntriesAgree(store, d, d', checksums, mode, sources);
    }
  }

  /** An earlier import with the same checksums, in whatever key order, does not stand in the way. */
  lemma SameChecksumsAreAccepted(known: Json.Value, checksums: Checksums)
    requires Json.Valid(known) && Json.Valid(checksums.json)
    ensures Changed(Some(known), checksums) <==> !Json.Same(known, checksums.json)
  {
    Json.StringifyIsNormalForm(known, checksums.json);
  }

  lemma {:induction false} EntriesMembers(store: map<string, Payload>, d: Payload -> string, checksums: Checksums,
                                          mode: ConflictMode, sources: seq<string>)
    requires forall s | s in sources :: HasChecksum(checksums, s)
    ensures |EntriesFor(store, d, checksums, mode, sources)| == |sources|
    ensures forall i | 0 <= i < |sources| ::
      EntriesFor(store, d, checksums, mode, sources)[i] == EntryFor(store, d, checksums, mode, sources[i])
  {
    if sources != [] {
      EntriesMembers(store, d, checksums, mode, sources[..|sources| - 1]);
    }
  }

  lemma WithActionMembers(entries: seq<PlanEntry>, action: Action, s: string)
    ensures s in WithAction(entries, action) <==> exists e :: e in entries && e.action == action && e.source == s
  {
    var kept := Filter(entries, HasAction(action));
    if s in WithAction(entries, action) {
      var i :| 0 <= i < |kept| && WithAction(entries, action)[i] == s;
      assert kept[i] in kept;
    }
    if e :| e in entries && e.action == action && e.source == s {
      assert e in kept;
      var i :| 0 <= i < |kept| && kept[i] == e;
      assert WithAction(entries, action)[i] == s;
    }
  }

  /** Every source is on exactly the list of its action, no entry is lost, and the plan fails exactly
      when, in the mode `error`, some stored source differs from the incoming one. */
  lemma PlanPartitions(store: map<string, Payload>, d: Payload -> string, checksums: Checksums,
                       mode: ConflictMode, sources: seq<string>)
    requires forall s | s in sources :: HasChecksum(checksums, s)
    ensures var plan := PlanOf(EntriesFor(store, d, checksums, mode, sources));
            && |plan.imported| + |plan.replaced| + |plan.skipped| + |plan.conflicting| == |sources|
            && (forall s | s in sources :: OnOwnList(store, d, checksums, mode, sources, s))
            && (plan.wouldFail <==>
                  mode == OnError && exists s :: s in sources && s in store && d(store[s]) != checksums.bySource[s])
  {
    ListsCoverEntries(EntriesFor(store, d, checksums, mode, sources));
    EntriesMembers(store, d, checksums, mode, sources);
    forall s | s in sources
      ensures OnOwnList(store, d, checksums, mode, sources, s)
    {
      OnExactlyOneList(store, d, checksums, mode, sources, s);
    }
    ConflictsWitnessed(store, d, checksums, mode, sources);
  }

  ghost predicate OnOwnList(store: map<string, Payload>, d: Payload -> string, checksums: Checksums,
                            mode: ConflictMode, sources: seq<string>, s: string)
    requires forall s | s in sources :: HasChecksum(checksums, s)
    requires s in sources
  {
    var plan := PlanOf(EntriesFor(store, d, checksums, mode, sources));
    var differs := s in store && d(store[s]) != checksums.bySource[s];
    && (s in plan.imported <==> s !in store)
    && (s in plan.skipped <==> s in store && (!differs || mode == OnSkip))
    && (s in plan.replaced <==> differs && mode == OnReplace)
    && (s in plan.conflicting <==> differs && mode == OnError)
  }

  lemma OnExactlyOneList(store: map<string, Payload>, d: Payload -> string, checksums: Checksums,
                         mode: ConflictMode, sources: seq<string>, s: string)
    requires forall s | s in sources :: HasChecksum(checksums, s)
    requires s in sources
    ensures OnOwnList(store, d, checksums, mode, sources, s)
  {
    ListedUnder(store, d, checksums, mode, sources, s, Import);
    ListedUnder(store, d, checksums, mode, sources, s, Replace);
    ListedUnder(store, d, checksums, mode, sources, s, Skip);
    ListedUnder(store, d, checksums, mode, sources, s, Conflict);
  }

  lemma ListedUnder(store: map<string, Payload>, d: Payload -> string, checksums: Checksums,
                    mode: ConflictMode, sources: seq<string>, s: string, action: Action)
    requires forall s | s in sources :: HasChecksum(checksums, s)
    requires s in sources
    ensures s in WithAction(EntriesFor(store, d, checksums, mode, sources), action)
       <==> EntryFor(store, d, checksums, mode, s).action == action
  {
    var entries := EntriesFor(store, d, checksums, mode, sources);
    EntriesMembers(store, d, checksums, mode, sources);
    var i :| 0 <= i < |sources| && sources[i] == s;
    forall j | 0 <= j < |entries| && entries[j].source == s ensures entries[j] == entries[i] {
      EntryNamesSource(store, d, checksums, mode, sources[j]);
    }
    EntryNamesSource(store, d, checksums, mode, s);
    ListedByAction(entries, i, action);
  }

  lemma EntryNamesSource(store: map<string, Payload>, d: Payload -> string, checksums: Checksums,
                         mode: ConflictMode, s: string)
    requires HasChecksum(checksums, s)
    ensures EntryFor(store, d, checksums, mode, s).source == s
  {}

  lemma ListedByAction(entries: seq<PlanEntry>, i: nat, action: Action)
    requires i < |entries| && forall j | 0 <= j < |entries| && entries[j].source == entries[i].source ::
      entries[j] == entries[i]
    ensures entries[i].source in WithAction(entries, action) <==> entries[i].action == action
  {
    WithActionMembers(entries, action, entries[i].source);
    assert entries[i] in entries;
    if e :| e in entries && e.action == action && e.source == entries[i].source {
      var j :| 0 <= j < |entries| && entries[j] == e;
    }
  }

  lemma {:induction false} ListsCoverEntries(entries: seq<PlanEntry>)
    ensures |WithAction(entries, Import)| + |WithAction(entries, Replace)| + |WithAction(entries, Skip)|
              + |WithAction(entries, Conflict)| == |entries|
  {
    if entries != [] {
      var init, last := entries[..|entries| - 1], entries[|entries| - 1];
      ListsCoverEntries(init);
      assert entries == init + [last];
      WithActionPush(init, last, Import);
      WithActionPush(init, last, Replace);
      WithActionPush(init, last, Skip);
      WithActionPush(init, last, Conflict);
    }
  }

  lemma SomeConflict(entries: seq<PlanEntry>)
    ensures WithAction(entries, Conflict) != [] <==> exists i :: 0 <= i < |entries| && entries[i].action == Conflict
  {
    var conflicts := WithAction(entries, Conflict);
    if conflicts != [] {
      WithActionMembers(entries, Conflict, conflicts[0]);
      var e :| e in entries && e.action == Conflict && e.source == conflicts[0];
      var i :| 0 <= i < |entries| && entries[i] == e;
      assert entries[i].action == Conflict;
    }
    if i :| 0 <= i < |entries| && entries[i].action == Conflict {
      WithActionMembers(entries, Conflict, entries[i].source);
    }
  }

  lemma ConflictsWitnessed(store: map<string, Payload>, d: Payload -> string, checksums: Checksums,
                           mode: ConflictMode, sources: seq<string>)
    requires forall s | s in sources :: HasChecksum(checksums, s)
    ensures WithAction(EntriesFor(store, d, checksums, mode, sources), Conflict) != []
       <==> mode == OnError && exists s :: s in sources && s in store && d(store[s]) != checksums.bySource[s]
  {
    var entries := EntriesFor(store, d, checksums, mode, sources);
    EntriesMembers(store, d, checksums, mode, sources);
    SomeConflict(entries);
    if i :| 0 <= i < |entries| && entries[i].action == Conflict {
      assert sources[i] in sources;
    }
    if s :| mode == OnError && s in sources && s in store && d(store[s]) != checksums.bySource[s] {
      var i :| 0 <= i < |sources| && sources[i] == s;
      assert entries[i].action == Conflict;
    }
  }

  // ------------------------------------------------- carrying out a plan

  /** The sources that a plan writes, in plan order. */
  function Written(entries: seq<PlanEntry>): seq<string> {
    Map(Filter(entries, IsWrite()), SourceOf())
  }

  /** Every payload prepared, or the first source for which it fails. */
  function PrepareAll(prepare: string -> Option<Payload>, sources: seq<string>): Result<seq<Payload>> {
    if sources == [] then Ok([])
    else match PrepareAll(prepare, sources[..|sources| - 1])
      case Err(e) => Err(e)
      case Ok(prepared) =>
        var last := sources[|sources| - 1];
        if prepare(last).None? then Err(PreparationFailed(last)) else Ok(prepared + [prepare(last).value])
  }

  /** The store after payloads are put in one after the other, each under its own source id. */
  function Put(payloads: map<string, Payload>, prepared: seq<Payload>): map<string, Payload> {
    if prepared == [] then payloads
    else Put(payloads, prepared[..|prepared| - 1])[prepared[|prepared| - 1].source := prepared[|prepared| - 1]]
  }

  class Store {
    var payloads: map<string, Payload>
    var bundles: map<string, Json.Value>

    ghost predicate Valid()
      reads this
    {
      forall s | s in payloads :: payloads[s].source == s
    }

    /** `replaceSourcePayload`: one transaction, which the store may refuse. */
    method ReplaceSourcePayload(payload: Payload, accepts: Payload -> bool) returns (ok: bool)
      requires Valid()
      modifies this`payloads
      ensures Valid() && ok == accepts(payload)
      ensures payloads == if ok then old(payloads)[payload.source := payload] else old(payloads)
    {
      ok := accepts(payload);
      if ok {
        payloads := payloads[payload.source := payload];
      }
    }
  }

  /** The first prepared payload that the store refuses. */
  function FirstRefused(prepared: seq<Payload>, accepts: Payload -> bool): nat {
    if prepared == [] || !accepts(prepared[0]) then 0 else 1 + FirstRefused(prepared[1..], accepts)
  }

  lemma {:induction false} FirstRefusedIs(prepared: seq<Payload>, accepts: Payload -> bool, k: nat)
    requires k <= |prepared| && (forall i | 0 <= i < k :: accepts(prepared[i]))
      && (k < |prepared| ==> !accepts(prepared[k]))
    ensures FirstRefused(prepared, accepts) == k
  {
    if k > 0 {
      assert forall i | 0 <= i < k - 1 :: prepared[1..][i] == prepared[i + 1];
      FirstRefusedIs(prepared[1..], accepts, k - 1);
    }
  }

  /** The first `i` entries are prepared. */
  ghost predicate Preparing(prepare: string -> Option<Payload>, entries: seq<PlanEntry>, i: nat,
                            prepared: seq<Payload>)
  {
    i <= |entries| && PrepareAll(prepare, Written(entries[..i])) == Ok(prepared)
  }

  lemma PreparingSkips(prepare: string -> Option<Payload>, entries: seq<PlanEntry>, i: nat, prepared: seq<Payload>)
    requires Preparing(prepare, entries, i, prepared) && i < |entries| && !IsWrite()(entries[i])
    ensures Preparing(prepare, entries, i + 1, prepared)
  {
    WrittenPush(entries[..i], entries[i]);
    assert entries[..i + 1] == entries[..i] + [entries[i]];
  }

  /** One more entry that is written, prepared or not. */
  lemma PreparesNext(prepare: string -> Option<Payload>, entries: seq<PlanEntry>, i: nat, prepared: seq<Payload>)
    requires Preparing(prepare, entries, i, prepared) && i < |entries| && IsWrite()(entries[i])
    ensures PrepareAll(prepare, Written(entries[..i + 1]))
         == if prepare(entries[i].source).None? then Err(PreparationFailed(entries[i].source))
            else Ok(prepared + [prepare(entries[i].source).value])
  {
    WrittenPush(entries[..i], entries[i]);
    assert entries[..i + 1] == entries[..i] + [entries[i]];
    PrepareAllPush(prepare, Written(entries[..i]), entries[i].source);
  }

  lemma PreparingNext(prepare: string -> Option<Payload>, entries: seq<PlanEntry>, i: nat, prepared: seq<Payload>)
    requires Preparing(prepare, entries, i, prepared) && i < |entries| && IsWrite()(entries[i])
    ensures prepare(entries[i].source).Some? ==>
      Preparing(prepare, entries, i + 1, prepared + [prepare(entries[i].source).value])
    ensures prepare(entries[i].source).None? ==>
      PrepareAll(prepare, Written(entries)) == Err(PreparationFailed(entries[i].source))
  {
    PreparesNext(prepare, entries, i, prepared);
    if prepare(entries[i].source).None? {
      FailureStays(prepare, entries, i + 1);
    }
  }

  method PreparePayloads(entries: seq<PlanEntry>, prepare: string -> Option<Payload>)
    returns (result: Result<seq<Payload>>)
    ensures result == PrepareAll(prepare, Written(entries))
  {
    var prepared: seq<Payload> := [];
    assert entries[..0] == [];
    for i := 0 to |entries|
      invariant Preparing(prepare, entries, i, prepared)
    {
      var e := entries[i];
      if e.action == Import || e.action == Replace {
        PreparingNext(prepare, entries, i, prepared);
        if prepare(e.source).None? {
          return Err(PreparationFailed(e.source));
        }
        prepared := prepared + [prepare(e.source).value];
      } else {
        PreparingSkips(prepare, entries, i, prepared);
      }
    }
    assert entries[..|entries|] == entries;
    result := Ok(prepared);
  }

  lemma WrittenPush(entries: seq<PlanEntry>, e: PlanEntry)
    ensures Written(entries + [e])
         == if e.action == Import || e.action == Replace then Written(entries) + [e.source] else Written(entries)
  {
    FilterPush(entries, e, IsWrite());
    var kept := Filter(entries, IsWrite());
    assert Map(kept + [e], SourceOf()) == Map(kept, SourceOf()) + [e.source];
    assert kept + [] == kept && Written(entries) + [] == Written(entries);
  }

  lemma PrepareAllPush(prepare: string -> Option<Payload>, sources: seq<string>, s: string)
    ensures PrepareAll(prepare, sources + [s])
         == match PrepareAll(prepare, sources)
            case Err(e) => Err(e)
            case Ok(prepared) =>
              if prepare(s).None? then Err(PreparationFailed(s)) else Ok(prepared + [prepare(s).value])
  {
    assert (sources + [s])[..|sources|] == sources;
  }

  lemma {:induction false} FailureStays(prepare: string -> Option<Payload>, entries: seq<PlanEntry>, i: nat)
    requires i <= |entries| && PrepareAll(prepare, Written(entries[..i])).Err?
    ensures PrepareAll(prepare, Written(entries)) == PrepareAll(prepare, Written(entries[..i]))
    decreases |entries| - i
  {
    if i < |entries| {
      WrittenPush(entries[..i], entries[i]);
      assert entries[..i + 1] == entries[..i] + [entries[i]];
      PrepareAllPush(prepare, Written(entries[..i]), entries[i].source);
      assert Written(entries[..i]) + [] == Written(entries[..i]);
      FailureStays(prepare, entries, i + 1);
    } else {
      assert entries[..i] == entries;
    }
  }

  /** What an import leaves behind: its answer, the payloads stored, and whether the bundle is recorded. */
  datatype Outcome = Outcome(result: Result<Plan>, payloads: map<string, Payload>, recorded: bool)

  function CarryOut(planned: Result<Plan>, before: map<string, Payload>, prepare: string -> Option<Payload>,
                    accepts: Payload -> bool): Outcome
    requires planned.Ok? ==> (planned.value.wouldFail <==> planned.value.conflicting != [])
  {
    if planned.Err? then Outcome(planned, before, false)
    else if planned.value.wouldFail then Outcome(Err(SourceConflict(planned.value.conflicting[0])), before, false)
    else match PrepareAll(prepare, Written(planned.value.entries))
      case Err(e) => Outcome(Err(e), before, false)
      case Ok(prepared) =>
        var k := FirstRefused(prepared, accepts);
        if k < |prepared| then Outcome(Err(WriteFailed(prepared[k].source)), Put(before, prepared[..k]), false)
        else Outcome(planned, Put(before, prepared), true)
  }

  /** `importBundleIntoStore`, once the manifest is read. */
  method ImportBundle(store: Store, bundle: string, checksums: Checksums, sources: seq<string>, mode: ConflictMode,
                      listed: seq<string>, digest: Payload -> string, prepare: string -> Option<Payload>,
                      accepts: Payload -> bool)
    returns (result: Result<Plan>)
    requires store.Valid() && forall s :: s in listed <==> s in store.payloads
    modifies store
    ensures store.Valid()
    ensures var known := if bundle in old(store.bundles) then Some(old(store.bundles)[bundle]) else None;
            var plan := PlanImport(known, old(store.payloads), digest, checksums, mode, sources);
            var outcome := CarryOut(plan, old(store.payloads), prepare, accepts);
            && result == outcome.result && store.payloads == outcome.payloads
            && store.bundles
                 == if outcome.recorded then old(store.bundles)[bundle := checksums.json] else old(store.bundles)
  {
    var known := if bundle in store.bundles then Some(store.bundles[bundle]) else None;
    var planned := PlanFromManifest(known, store.payloads, listed, digest, checksums, mode, sources);
    if planned.Err? {
      return planned;
    }
    var plan := planned.value;
    if plan.wouldFail {
      return Err(SourceConflict(plan.conflicting[0]));
    }
    var preparation := PreparePayloads(plan.entries, prepare);
    if preparation.Err? {
      return Err(preparation.error);
    }
    var refused := WriteAll(store, preparation.value, accepts);
    if refused.Some? {
      return Err(WriteFailed(refused.value));
    }
    store.bundles := store.bundles[bundle := checksums.json];
    result := planned;
  }

  /** The writes, up to the first one that the store refuses. */
  method WriteAll(store: Store, prepared: seq<Payload>, accepts: Payload -> bool) returns (refused: Option<string>)
    requires store.Valid()
    modifies store`payloads
    ensures store.Valid()
    ensures var k := FirstRefused(prepared, accepts);
            && k <= |prepared| && store.payloads == Put(old(store.payloads), prepared[..k])
            && refused == (if k < |prepared| then Some(prepared[k].source) else None)
            && (k == |prepared| ==> store.payloads == Put(old(store.payloads), prepared))
  {
    for k := 0 to |prepared|
      invariant store.Valid() && store.payloads == Put(old(store.payloads), prepared[..k])
      invariant forall i | 0 <= i < k :: accepts(prepared[i])
    {
      assert prepared[..k + 1][..k] == prepared[..k];
      var ok := store.ReplaceSourcePayload(prepared[k], accepts);
      if !ok {
        FirstRefusedIs(prepared, accepts, k);
        return Some(prepared[k].source);
      }
    }
    FirstRefusedIs(prepared, accepts, |prepared|);
    assert prepared[..|prepared|] == prepared;
    refused := None;
  }

  // ------------------------------------------------- when an import goes through

  /** The sources that an import must write. */
  predicate NeedsWrite(store: map<string, Payload>, d: Payload -> string, checksums: Checksums, mode: ConflictMode,
                       s: string)
    requires HasChecksum(checksums, s)
  {
    s !in store || (d(store[s]) != checksums.bySource[s] && mode == OnReplace)
  }

  lemma {:induction false} WrittenMembers(store: map<string, Payload>, d: Payload -> string, checksums: Checksums,
                                          mode: ConflictMode, sources: seq<string>, s: string)
    requires forall t | t in sources :: HasChecksum(checksums, t)
    ensures s in Written(EntriesFor(store, d, checksums, mode, sources))
       <==> s in sources && NeedsWrite(store, d, checksums, mode, s)
  {
    if sources != [] {
      var init, last := sources[..|sources| - 1], sources[|sources| - 1];
      assert sources == init + [last];
      WrittenMembers(store, d, checksums, mode, init, s);
      WrittenPush(EntriesFor(store, d, checksums, mode, init), EntryFor(store, d, checksums, mode, last));
      EntryNamesSource(store, d, checksums, mode, last);
    }
  }

  lemma {:induction false} AllPreparedIff(prepare: string -> Option<Payload>, sources: seq<string>)
    ensures PrepareAll(prepare, sources).Ok? <==> forall s | s in sources :: prepare(s).Some?
  {
    if sources != [] {
      var init, last := sources[..|sources| - 1], sources[|sources| - 1];
      assert forall s :: s in sources <==> s in init || s == last;
      AllPreparedIff(prepare, init);
    }
  }

  lemma {:induction false} AllAcceptedIff(prepared: seq<Payload>, accepts: Payload -> bool)
    ensures FirstRefused(prepared, accepts) <= |prepared|
    ensures FirstRefused(prepared, accepts) == |prepared| <==> forall i | 0 <= i < |prepared| :: accepts(prepared[i])
  {
    if prepared != [] {
      AllAcceptedIff(prepared[1..], accepts);
      assert forall i | 0 < i < |prepared| :: prepared[i] == prepared[1..][i - 1];
    }
  }

  /** What an import takes to go through: the bundle is not known with other checksums, every source has
      a checksum, no stored source differs under the mode `error`, and every payload to write is prepared
      and accepted. */
  ghost predicate GoesThrough(changed: bool, store: map<string, Payload>, d: Payload -> string, checksums: Checksums,
                              mode: ConflictMode, sources: seq<string>, prepare: string -> Option<Payload>,
                              accepts: Payload -> bool)
  {
    && !changed && (forall s | s in sources :: HasChecksum(checksums, s))
    && (mode == OnError ==> forall s | s in sources && s in store :: d(store[s]) == checksums.bySource[s])
    && (forall s | s in sources && NeedsWrite(store, d, checksums, mode, s) :: Writable(prepare, accepts, s))
  }

  predicate Writable(prepare: string -> Option<Payload>, accepts: Payload -> bool, s: string) {
    prepare(s).Some? && accepts(prepare(s).value)
  }

  lemma WritesGoThrough(prepare: string -> Option<Payload>, accepts: Payload -> bool, written: seq<string>)
    ensures (PrepareAll(prepare, written).Ok? && forall p | p in PrepareAll(prepare, written).value :: accepts(p))
       <==> forall s | s in written :: Writable(prepare, accepts, s)
  {
    AllPreparedIff(prepare, written);
    if PrepareAll(prepare, written).Ok? {
      var prepared := PrepareAll(prepare, written).value;
      PreparedAre(prepare, written);
      if forall p | p in prepared :: accepts(p) {
        forall s | s in written ensures Writable(prepare, accepts, s) {
          var i :| 0 <= i < |written| && written[i] == s;
          assert prepared[i] in prepared;
        }
      }
      if forall s | s in written :: Writable(prepare, accepts, s) {
        forall p | p in prepared ensures accepts(p) {
          var i :| 0 <= i < |prepared| && prepared[i] == p;
          assert Writable(prepare, accepts, written[i]);
        }
      }
    }
  }

  /** An import answers with a plan, and records the bundle, exactly when it goes through; and an import
      that stops before the store refuses a write leaves the store as it was. */
  lemma ImportGoesThroughIff(known: Option<Json.Value>, store: map<string, Payload>, d: Payload -> string,
                             checksums: Checksums, mode: ConflictMode, sources: seq<string>,
                             prepare: string -> Option<Payload>, accepts: Payload -> bool)
    ensures var outcome := CarryOut(PlanImport(known, store, d, checksums, mode, sources), store, prepare, accepts);
            && (outcome.recorded <==> outcome.result.Ok?)
            && (outcome.recorded <==>
                  GoesThrough(Changed(known, checksums), store, d, checksums, mode, sources, prepare, accepts))
            && (outcome.result.Err? && !outcome.result.error.WriteFailed? ==> outcome.payloads == store)
  {
    NoneMissing(checksums, sources);
    if !Changed(known, checksums) && FirstMissing(checksums, sources).None? {
      var entries := EntriesFor(store, d, checksums, mode, sources);
      ConflictsWitnessed(store, d, checksums, mode, sources);
      WritesGoThrough(prepare, accepts, Written(entries));
      forall s ensures s in Written(entries) <==> s in sources && NeedsWrite(store, d, checksums, mode, s) {
        WrittenMembers(store, d, checksums, mode, sources, s);
      }
      CarriedOut(PlanOf(entries), store, prepare, accepts);
    }
  }

  lemma CarriedOut(plan: Plan, store: map<string, Payload>, prepare: string -> Option<Payload>,
                   accepts: Payload -> bool)
    requires plan.wouldFail <==> plan.conflicting != []
    ensures var outcome := CarryOut(Ok(plan), store, prepare, accepts);
            var preparation := PrepareAll(prepare, Written(plan.entries));
            && (outcome.recorded <==> outcome.result.Ok?)
            && (outcome.recorded <==>
                  !plan.wouldFail && preparation.Ok? && forall p | p in preparation.value :: accepts(p))
            && (outcome.result.Err? && !outcome.result.error.WriteFailed? ==> outcome.payloads == store)
  {
    if PrepareAll(prepare, Written(plan.entries)).Ok? {
      AllAcceptedIff(PrepareAll(prepare, Written(plan.entries)).value, accepts);
    }
  }

  // ------------------------------------------------- what a successful import changes

  lemma {:induction false} PreparedAre(prepare: string -> Option<Payload>, sources: seq<string>)
    requires PrepareAll(prepare, sources).Ok?
    ensures var prepared := PrepareAll(prepare, sources).value;
            |prepared| == |sources| && forall i | 0 <= i < |sources| :: prepare(sources[i]) == Some(prepared[i])
  {
    if sources != [] {
      PreparedAre(prepare, sources[..|sources| - 1]);
    }
  }

  lemma {:induction false} PutLookup(payloads: map<string, Payload>, prepared: seq<Payload>, s: string)
    ensures var after := Put(payloads, prepared);
            && (s in after && (s !in payloads || after[s] != payloads[s]) ==>
                  exists i :: 0 <= i < |prepared| && prepared[i].source == s && after[s] == prepared[i])
            && ((exists i :: 0 <= i < |prepared| && prepared[i].source == s) ==>
                  s in after && exists i :: 0 <= i < |prepared| && prepared[i].source == s && after[s] == prepared[i])
            && (s in payloads ==> s in after)
            && ((forall i | 0 <= i < |prepared| :: prepared[i].source != s) ==>
                  (s in after <==> s in payloads) && (s in after ==> after[s] == payloads[s]))
  {
    if prepared != [] {
      PutLookup(payloads, prepared[..|prepared| - 1], s);
    }
  }

  /** The effect that is wanted: the written sources hold their prepared payloads, the others are as before. */
  ghost predicate ChangesExactly(before: map<string, Payload>, after: map<string, Payload>,
                                 prepare: string -> Option<Payload>, written: seq<string>)
  {
    && (forall s | s in written :: s in after && prepare(s) == Some(after[s]))
    && (forall s | s !in written :: (s in after <==> s in before) && (s in after ==> after[s] == before[s]))
  }

  /** A payload file names, inside, the source that the manifest lists it under. */
  ghost predicate Aligned(prepare: string -> Option<Payload>, written: seq<string>) {
    forall s | s in written :: prepare(s).Some? ==> prepare(s).value.source == s
  }

  lemma PutChangesExactlyIff(before: map<string, Payload>, prepare: string -> Option<Payload>, written: seq<string>)
    requires forall s | s in before :: before[s].source == s
    requires PrepareAll(prepare, written).Ok?
    ensures ChangesExactly(before, Put(before, PrepareAll(prepare, written).value), prepare, written)
       <==> Aligned(prepare, written)
  {
    var prepared := PrepareAll(prepare, written).value;
    var after := Put(before, prepared);
    PreparedAre(prepare, written);
    forall s ensures s in after ==> after[s].source == s {
      PutLookup(before, prepared, s);
    }
    if Aligned(prepare, written) {
      forall i | 0 <= i < |written| ensures prepared[i].source == written[i] {
        assert written[i] in written;
      }
      forall s | s in written ensures s in after && prepare(s) == Some(after[s]) {
        PutLookup(before, prepared, s);
        var k :| 0 <= k < |written| && written[k] == s;
        var i :| 0 <= i < |prepared| && prepared[i].source == s && after[s] == prepared[i];
      }
      forall s | s !in written ensures (s in after <==> s in before) && (s in after ==> after[s] == before[s]) {
        PutLookup(before, prepared, s);
        assert forall i | 0 <= i < |prepared| :: prepared[i].source == written[i] && written[i] in written;
      }
    }
  }

  /** What is written is what the plan lists to import or to replace. */
  lemma WrittenIsListed(entries: seq<PlanEntry>, s: string)
    ensures s in Written(entries) <==> s in PlanOf(entries).imported || s in PlanOf(entries).replaced
  {
    var kept := Filter(entries, IsWrite());
    WithActionMembers(entries, Import, s);
    WithActionMembers(entries, Replace, s);
    if s in Written(entries) {
      var i :| 0 <= i < |kept| && Written(entries)[i] == s;
      assert kept[i] in kept && kept[i] in entries;
    }
    if e :| e in entries && (e.action == Import || e.action == Replace) && e.source == s {
      assert e in kept;
      var i :| 0 <= i < |kept| && kept[i] == e;
      assert Written(entries)[i] == s;
    }
  }

  /** An import that goes through changes exactly the sources that its plan lists to import or replace, each to
      the payload prepared for it, if and only if every payload file names the source that it is listed under. */
  lemma ImportEffectIff(known: Option<Json.Value>, store: map<string, Payload>, d: Payload -> string,
                        checksums: Checksums, mode: ConflictMode, sources: seq<string>,
                        prepare: string -> Option<Payload>, accepts: Payload -> bool)
    requires forall s | s in store :: store[s].source == s
    requires CarryOut(PlanImport(known, store, d, checksums, mode, sources), store, prepare, accepts).recorded
    ensures var outcome := CarryOut(PlanImport(known, store, d, checksums, mode, sources), store, prepare, accepts);
            var plan := outcome.result.value;
            && outcome.result == PlanImport(known, store, d, checksums, mode, sources)
            && (ChangesExactly(store, outcome.payloads, prepare, plan.imported + plan.replaced)
                <==> Aligned(prepare, plan.imported + plan.replaced))
  {
    NoneMissing(checksums, sources);
    var entries := EntriesFor(store, d, checksums, mode, sources);
    var plan := PlanOf(entries);
    var written, listed := Written(entries), plan.imported + plan.replaced;
    forall s ensures s in written <==> s in listed {
      WrittenIsListed(entries, s);
    }
    RecordedOutcome(plan, store, prepare, accepts);
    PutChangesExactlyIff(store, prepare, written);
  }

  lemma RecordedOutcome(plan: Plan, store: map<string, Payload>, prepare: string -> Option<Payload>,
                        accepts: Payload -> bool)
    requires (plan.wouldFail <==> plan.conflicting != []) && CarryOut(Ok(plan), store, prepare, accepts).recorded
    ensures PrepareAll(prepare, Written(plan.entries)).Ok?
    ensures CarryOut(Ok(plan), store, prepare, accepts)
         == Outcome(Ok(plan), Put(store, PrepareAll(prepare, Written(plan.entries)).value), true)
  {}

  lemma OneSource(store: map<string, Payload>, d: Payload -> string, checksums: Checksums, s: string)
    requires HasChecksum(checksums, s)
    ensures var e := EntryFor(store, d, checksums, OnError, s);
            && PlanImport(None, store, d, checksums, OnError, [s]) == Ok(PlanOf([e]))
            && PlanOf([e]).imported == (if e.action == Import then [s] else [])
            && PlanOf([e]).replaced == (if e.action == Replace then [s] else [])
            && PlanOf([e]).conflicting == (if e.action == Conflict then [s] else [])
  {
    var e := EntryFor(store, d, checksums, OnError, s);
    NoneMissing(checksums, [s]);
    EntriesMembers(store, d, checksums, OnError, [s]);
    assert EntriesFor(store, d, checksums, OnError, [s]) == [e];
    EntryNamesSource(store, d, checksums, OnError, s);
    PlanPush([], e);
    assert [] + [e] == [e] && [] + [s] == [s];
    assert forall action :: WithAction([], action) == [];
  }

  lemma WrittenOne(entry: PlanEntry)
    requires entry.action == Import
    ensures Written([entry]) == [entry.source] && PlanOf([entry]).conflicting == []
  {
    PlanPush([], entry);
    WrittenPush([], entry);
    assert [] + [entry] == [entry] && [] + [entry.source] == [entry.source];
    assert Written([]) == [] && WithAction([], Conflict) == [];
  }

  lemma PutOne(before: map<string, Payload>, p: Payload)
    ensures Put(before, [p]) == before[p.source := p]
  {
    assert [p][..0] == [];
  }

  /** Carrying out a plan that imports one source. */
  lemma CarryOutOne(entry: PlanEntry, before: map<string, Payload>, prepare: string -> Option<Payload>,
                    accepts: Payload -> bool, p: Payload)
    requires entry.action == Import && prepare(entry.source) == Some(p) && accepts(p)
    ensures var plan := PlanOf([entry]);
            plan.conflicting == []
            && CarryOut(Ok(plan), before, prepare, accepts) == Outcome(Ok(plan), before[p.source := p], true)
  {
    WrittenOne(entry);
    PrepareAllPush(prepare, [], entry.source);
    assert [] + [entry.source] == [entry.source] && [] + [p] == [p];
    FirstRefusedIs([p], accepts, 1);
    PutOne(before, p);
  }

  /** An import of one new source `a`, in the mode that lets nothing be overwritten, whose file names inside a
      stored source `b`: it goes through, overwrites `b` and leaves `a` out. */
  lemma MisnamedFileOverwrites(store: map<string, Payload>, d: Payload -> string, checksums: Checksums, a: string,
                               b: string, p: Payload, prepare: string -> Option<Payload>, accepts: Payload -> bool)
    requires HasChecksum(checksums, a) && a !in store && b in store
    requires prepare(a) == Some(p) && p.source == b && accepts(p)
    ensures var plan := PlanImport(None, store, d, checksums, OnError, [a]);
            var outcome := CarryOut(plan, store, prepare, accepts);
            && plan.Ok? && plan.value.imported == [a] && plan.value.replaced == []
            && outcome.recorded && outcome.payloads == store[b := p] && a !in outcome.payloads
  {
    OneSource(store, d, checksums, a);
    CarryOutOne(PlanEntry(a, Import, NewSource), store, prepare, accepts, p);
  }

  /** The planner over payloads goes by the name inside, and refuses that file when `b` differs. */
  lemma MisnamedFileIsRefused(store: map<string, Payload>, d: Payload -> string, checksums: Checksums, p: Payload)
    requires HasChecksum(checksums, p.source) && p.source in store
    requires d(store[p.source]) != checksums.bySource[p.source]
    ensures var plan := PlanImport(None, store, d, checksums, OnError, SourcesOf([p]));
            plan.Ok? && plan.value.wouldFail && plan.value.conflicting == [p.source]
  {
    OneSource(store, d, checksums, p.source);
    assert SourcesOf([p]) == [p.source];
  }
}
