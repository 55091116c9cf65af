# CC History: a verified model

CC History collects the native history files of AI coding tools, links the turns in them to projects, moves
them between machines as bundles, and shows them in a web client and in two terminal browsers. This project
models the parts of it that decide something, in Dafny, and proves what they promise. `dafny verify
dfyconfig.toml` checks all of it.

**Bundles** (`ChunkedScan`, `JsonText`, `StreamSplitter`, `StreamRoundTrip`, `CanonicalJson`, `ImportPlan`).
A large payload file is parsed by a byte scanner that keeps its state across arbitrary chunks. The scanner is
an object, `Splitter`; its state after any chunks is the run of a step function; and that run is computed
exactly on every text that the exporter prints (`packages/storage/src/internal/storage.ts:862-960`), as bytes
of JSON in the sense of sections 2, 4, 5 and 7 of RFC 8259 and UTF-8 in the sense of section 3 of RFC 3629.
Streaming undoes printing exactly when no chunk ends inside a field name: the code carries only an unfinished
value over a chunk end. The canonical text that compares checksum records is a normal form. The two import
planners compute one plan function, and an import's effect on the store is stated for every way in which it
can fail.

**The project linker** (`UnionFind`, `LinkRules`, `LinkGroups`, `LinkProjects`, `LinkRollup`). Observations
are classified into rules, merged by a path-compressing union-find, and named by the least rule of their
component. The reference is connectivity by chains of shared keys. Groups, ids and links do not depend on the
order of the observations, no two groups share an id, turns are conserved by the counts, and sessions are shown
under the project of their latest turn.

**Related work** (`RelatedWork`). Relation fragments are folded into entries per session. Entries sum up
exactly their fragments and ignore their order; the exact condition under which delegations pair up is given,
and a family of sessions that does not meet it.

**Suggestions** (`EditDistance`, `Suggestions`). The rolling rows compute the recursive distance, which is the
least number of edits and a metric; from that follows which candidates are suggested.

**Masks** (`MaskText`). Matches are accepted greedily by precedence, and the text is cut into segments that
give it back.

**Terminal text and keys** (`LiteText`, `TuiWrap`, `KeyDecoder`). Both word wraps, the clip, and the
incremental decoder of key presses, whose escape sequences are a narrowed form of the control sequences of
section 5.4 of ECMA-48.

**The Lite browser** (`LiteState`, `LiteRender`, `LiteLists`, `LiteSession`). The reducer, the heights of the
frame, the rows of the lists, and the interactive session with its two kinds of background scan, as a step
function over events and as an object that refines it. The invariant of `SessionsAreOrderly` holds in every
session, through every resize; on top of it stand exact conditions for what opens the conversation and what a
failed scan changes, and that the selection is always on the screen and the arrow keys lead to every row.

**Path scope** (`ProjectScope`). Which projects a path stands for; the tie that a comment calls impossible
is impossible.

`Options`, `Numbers`, `CodeUnits`, `Sequences` and `Sorting` hold what the others share: optional values, UTF-16
units, filters, permutations, and a stable sort with its laws.

Where the code does not do what its documentation says, or what one would expect of it, the model follows the
code, and a theorem gives the exact condition under which it does:

- a field whose name is cut by a chunk end is lost to the empty name (`RoundTripIff`, `CutFieldsGoAstray`,
  `CutNameExample`);
- a payload file that names another source than the one it is listed under replaces that other source, even in
  the mode that lets nothing be replaced (`ImportEffectIff`, `PlannersAgreeIff`, `MisnamedFileOverwrites`);
- a project that a reference finds is reported as missing when it has no workspace, although the
  documentation makes it the main (`ReferenceIsMainIff`, `LostReferenceExample`);
- with a root such as `/` or `c:/` as input, the projects below it in the directory tree are not found; only
  projects on network shares count as below `/` (`RootInputIff`, `BelowByNames`);
- an outbound delegation may have no inbound counterpart, because relations whose ids differ only in characters
  that entry ids replace share an entry (`PairedIff`, `ParentsCollide`, `CollidingParentsUnpaired`);
- turns that an override assigns to an empty project id are counted nowhere (`ConservationIff`);
- the original characters of an empty text are miscounted when a collapsing template has an empty prefix
  (`CountIsLengthIff`);
- the message that a project, session or turn was not found is lost when a query is given along with it
  (`EntrySearchLiesOver`);
- a focused detail pane may cut the selected turn out of the turns pane (`SelectedTurnKeptIff`), and a left list
  scrolled half-way loses its lower hint (`LeftListFitsIff`).

The model keeps the form of the source: the scanner, the decoder, the index builder, the
union-find forest, the store, the scroll bounds and the interactive session are classes whose methods change
their fields, each tied to a function of the old fields; loops are loops with invariants; what the source
writes as expressions is functions.

## Model

| member | source | states |
|---|---|---|
| `StreamRoundTrip.RoundTripIff` | apps/cli/src/bundle.ts:447-458 | For every exportable payload and every way of cutting its printed text into chunks, the streaming parser returns the printed source and the printed elements of every field, in order, if and only if no chunk ends inside a field name. |
| `StreamRoundTrip.ParseOfPrinted` | apps/cli/src/bundle.ts:498-630 | The exact result under every chunking: each value survives every cut, and a field whose name is cut goes under the empty name. |
| `StreamRoundTrip.OriginalHolds` | apps/cli/src/bundle.ts:620-630 | With distinct names, the result holds each field's element texts in order, all eleven array fields have a value, and no other field appears. |
| `StreamRoundTrip.CutFieldsGoAstray` | apps/cli/src/bundle.ts:498-630 | Under every chunking each field holds exactly its own elements unless its name is cut; then it is empty, or missing if it is none of the eleven, and its elements are under the empty name, in the order of the text. |
| `StreamRoundTrip.CutNameExample` | apps/cli/src/bundle.ts:499-502 | A chunk that ends just inside a field name: the field is there and empty, and its element is under the empty name. |
| `StreamRoundTrip.ParsedChunksAreCuts` | apps/cli/src/bundle.ts:498-618 | Parsing chunk by chunk is one scan of the whole text that forgets an unfinished key at every chunk end. |
| `ChunkedScan.ChunksAreCuts` | apps/cli/src/bundle.ts:498-618 | For any scanner state and any effect of a chunk end that is idempotent and invisible in the result, chunked scanning is scanning with cuts. |
| `StreamRoundTrip.ScanValue` | apps/cli/src/bundle.ts:568-607 | Inside a collected value, any JSON value is passed over with the nesting depth first returning to where it was at the value's end, strings and escapes skipped, whatever the chunk ends. |
| `StreamRoundTrip.ScanContainer` | apps/cli/src/bundle.ts:555-607 | An object or array where a value is expected is extracted as exactly its printed bytes. |
| `StreamRoundTrip.ScanName` | apps/cli/src/bundle.ts:516-533 | A field name is read whole if no chunk ends inside it and as the empty name otherwise. |
| `StreamRoundTrip.ScanArray` | apps/cli/src/bundle.ts:549-607 | After a field name, a printed array appends exactly its printed elements to that field and leaves the scanner waiting for the next name. |
| `JsonText.EscapedIsStringBody` | apps/cli/src/bundle.ts:508-534 | Every string of UTF-16 units, lone surrogates included, escaped as JSON.stringify escapes it and encoded as UTF-8, is passed over by the byte scan without leaving the string. |
| `StreamSplitter.Splitter.PushAcc` | apps/cli/src/bundle.ts:488-494 | A slice is appended to the accumulator; a negative start counts from the end of the chunk, as Buffer.subarray does. |
| `StreamSplitter.Splitter.FlushAcc` | apps/cli/src/bundle.ts:481-486 | The accumulated bytes are returned and the accumulator is emptied. |
| `StreamSplitter.Splitter.TakeKey` | apps/cli/src/bundle.ts:520-524 | The key is what earlier chunks left and this chunk up to the quote; with its start lost, nothing of this chunk. |
| `StreamSplitter.Splitter.TakeValue` | apps/cli/src/bundle.ts:573-577 | The finished value is what earlier chunks left and this chunk up to and including the closing byte. |
| `StreamSplitter.Splitter.QuoteByte` | apps/cli/src/bundle.ts:516-533 | An unescaped quote moves the scanner state as the specification's step does. |
| `StreamSplitter.Splitter.ValueByte` | apps/cli/src/bundle.ts:568-607 | Inside a value, a byte nests, unnests, or ends the value and stores it, as the specification's step does. |
| `StreamSplitter.Splitter.StructuralByte` | apps/cli/src/bundle.ts:536-611 | The switch over the phases refines the specification's step outside strings. |
| `StreamSplitter.Splitter.Byte` | apps/cli/src/bundle.ts:504-612 | One turn of the byte loop refines one step of the specification. |
| `StreamSplitter.Splitter.CarryOver` | apps/cli/src/bundle.ts:614-617 | At the end of a chunk an unfinished value is kept and an unfinished key is dropped. |
| `StreamSplitter.Splitter.Data` | apps/cli/src/bundle.ts:498-618 | The data event: the state after a chunk is the state after its bytes, cut at the chunk's end. |
| `StreamSplitter.Splitter.End` | apps/cli/src/bundle.ts:620-630 | The end event: fields that never appeared are empty lists. |
| `StreamSplitter.ParsePayloadStreaming` | apps/cli/src/bundle.ts:459-634 | The whole parser computes the specification's run over the chunks. |
| `CanonicalJson.StringifyIsNormalForm` | apps/cli/src/bundle.ts:31-42 | Two values that JSON.parse can give have the same canonical text if and only if they are equal up to the order of object keys, a number too large to be held counting as null. |
| `CanonicalJson.ReadValue` | apps/cli/src/bundle.ts:31-42 | Canonical texts are read unambiguously: equal texts before any delimiter come from values that are the same up to key order, and what follows is equal too. |
| `CanonicalJson.SameStringify` | apps/cli/src/bundle.ts:38-41 | Values that are equal up to key order have the same canonical text. |
| `CanonicalJson.QuoteUnique` | apps/cli/src/bundle.ts:32-34 | Quoted strings are read unambiguously, escapes and lone surrogates included. |
| `ImportPlan.PlanFromPayloads` | apps/cli/src/bundle.ts:211-286 | The planner over payloads: the plan, or the error for a changed bundle or the first source without a checksum. |
| `ImportPlan.PlanFromManifest` | apps/cli/src/bundle.ts:293-369 | The planner over the manifest computes the same plan function, from the list of stored sources and streamed digests. |
| `ImportPlan.PlannersAgreeIff` | apps/cli/src/bundle.ts:211-369 | Given equal digests of what is stored, the planner over the payloads and the planner over the manifest answer alike if and only if the bundle is rejected as changed, or the same source is the first without a checksum, or none lacks one and the files name exactly the sources that the manifest lists, in its order. |
| `ImportPlan.PlanPartitions` | apps/cli/src/bundle.ts:229-285 | Every source is on exactly the list of its action, the four lists have as many members as there are sources, and the plan fails exactly when a stored source differs under the mode error. |
| `ImportPlan.SameChecksumsAreAccepted` | apps/cli/src/bundle.ts:218-221 | A known bundle is rejected as changed exactly when its checksums differ by more than key order. |
| `ImportPlan.PreparePayloads` | apps/cli/src/bundle.ts:693-701 | The payloads of all sources to import or replace, or the first failure; sources to skip are not prepared. |
| `ImportPlan.WriteAll` | apps/cli/src/bundle.ts:703-705 | The prepared payloads are written in order up to the first one that the store refuses. |
| `ImportPlan.ImportBundle` | apps/cli/src/bundle.ts:670-722 | The whole import: its answer, the store and the bundle records after it, in every case of failure. |
| `ImportPlan.ImportGoesThroughIff` | apps/cli/src/bundle.ts:690-722 | An import answers with a plan and records the bundle if and only if the bundle is unchanged, every source has a checksum, nothing conflicts under the mode error and every payload to write is prepared and accepted; if it stops before a refused write the store is as it was. |
| `ImportPlan.ImportEffectIff` | apps/cli/src/bundle.ts:670-722 | An import that goes through changes exactly the sources that its plan lists to import or replace, each to the payload prepared for it, if and only if every payload file names the source that it is listed under. |
| `ImportPlan.MisnamedFileOverwrites` | apps/cli/src/bundle.ts:676-705 | In the mode error, importing one new source whose file names a stored source inside goes through, overwrites the stored source and leaves the new one out. |
| `ImportPlan.MisnamedFileIsRefused` | apps/cli/src/bundle.ts:229-284 | The planner over payloads reports a conflict for that file when the stored source differs. |
| `UnionFind.Forest.Find` | packages/canonical/src/project-linker.ts:286-295 | Find terminates, returns the root, and redirects the path without changing any element's root. |
| `UnionFind.Forest.Union` | packages/canonical/src/project-linker.ts:296-302 | Union merges exactly the two classes. |
| `UnionFind.Compressing` | packages/canonical/src/project-linker.ts:293-294 | Redirecting an element to its root keeps the forest and all roots. |
| `UnionFind.Hanging` | packages/canonical/src/project-linker.ts:299-301 | Hanging one root under another keeps a forest, with the two classes merged. |
| `LinkGroups.IndexKeys` | packages/canonical/src/project-linker.ts:304-315 | The key table holds, for every key, exactly the positions of the observations with that key. |
| `LinkGroups.UnionSharedKeys` | packages/canonical/src/project-linker.ts:286-321 | After all unions two observations have one root if and only if a chain of shared keys connects them. |
| `LinkGroups.UnionIndexes` | packages/canonical/src/project-linker.ts:317-321 | Uniting the positions of one key joins them, joins nothing that is not connected and separates nothing. |
| `LinkGroups.GatherByRoot` | packages/canonical/src/project-linker.ts:323-332 | Gathering by root collects each class, in scope order. |
| `LinkGroups.ScopeComponents` | packages/canonical/src/project-linker.ts:275-332 | The components of a scope are its connectivity classes: they cover it and no two are connected. |
| `LinkGroups.SameComponentIffConnected` | packages/canonical/src/project-linker.ts:286-332 | Two observations end in one component exactly when a chain of shared rule keys links them. |
| `LinkGroups.ConnectedTransitive` | packages/canonical/src/project-linker.ts:317-321 | Connectivity by shared keys is transitive; with reflexivity and symmetry it is an equivalence on the scope. |
| `LinkRules.ClassifyIsKeyDetermined` | packages/canonical/src/project-linker.ts:474-540 | A rule's key determines the whole rule and its linkage scope, for every observation. |
| `LinkRules.ConfidenceGrows` | packages/canonical/src/project-linker.ts:580-655 | More sessions, platforms or a repository root never lower a candidate group's confidence, and each reason keeps to its own range. |
| `LinkRules.RuleOrderIsTotal` | packages/canonical/src/project-linker.ts:442-472 | The rule comparison is a total preorder in which only rules with one key tie. |
| `LinkProjects.CountKeys` | packages/canonical/src/project-linker.ts:400-416 | The count of a key is the number of observations of the component that have it. |
| `LinkProjects.SelectPrimaryRule` | packages/canonical/src/project-linker.ts:400-427 | The primary rule of a component, from the rules on keys that at least two observations share if there are any. |
| `LinkProjects.PrimaryRuleIsLeast` | packages/canonical/src/project-linker.ts:416-427 | The primary rule is the least eligible rule, and the only least one. |
| `LinkProjects.PrimaryRuleExists` | packages/canonical/src/project-linker.ts:335-338 | Every component of a scope has a primary rule, so no component is skipped. |
| `LinkProjects.PrimaryRuleForgetsOrder` | packages/canonical/src/project-linker.ts:400-427 | The primary rule does not depend on the order of the component. |
| `LinkProjects.BuildScopeGroups` | packages/canonical/src/project-linker.ts:334-358 | One group per component of a scope, with its project id, state, reason and confidence. |
| `LinkProjects.BuildObservationGroups` | packages/canonical/src/project-linker.ts:268-375 | The groups of both scopes, and every observation linked to the last group that holds it. |
| `LinkProjects.KeysSeparateComponents` | packages/canonical/src/project-linker.ts:334-342 | Different components have different primary keys. |
| `LinkProjects.ProjectIdsAreUnique` | packages/canonical/src/project-linker.ts:342-354 | No two groups have one project id, across both scopes. |
| `LinkProjects.GroupsForgetOrder` | packages/canonical/src/project-linker.ts:268-375 | Permuting the observations gives the same groups: same members, project id, state, reason and confidence. |
| `LinkProjects.LinksForgetOrder` | packages/canonical/src/project-linker.ts:361-372 | Permuting the observations links every observation to the same project, in the same state and for the same reason. |
| `LinkProjects.OneOwner` | packages/canonical/src/project-linker.ts:355-357 | An observation is in one group only. |
| `LinkProjects.LinkedIffRules` | packages/canonical/src/project-linker.ts:361-372 | An observation is linked exactly when it has a rule at all, and then to the group that it is in. |
| `LinkRollup.BuildProjects` | packages/canonical/src/project-linker.ts:96-106 | The project table: a project per group and one per override that names no other, with the state and confidence of each. |
| `LinkRollup.SelectObservationForTurn` | packages/canonical/src/project-linker.ts:733-749 | The backward scan returns the last observation at or before the turn's activity, or the first one. |
| `LinkRollup.ChosenIsLatestOrEarliest` | packages/canonical/src/project-linker.ts:733-749 | The chosen observation is the latest of those at or before the last activity, else the earliest of all. |
| `LinkRollup.DecorateTurn` | packages/canonical/src/project-linker.ts:657-719 | A turn gets its override's project, or the project of the chosen observation, or stays as it came. |
| `LinkRollup.TurnFollowsObservation` | packages/canonical/src/project-linker.ts:657-719 | A turn without override in a session with linked observations gets the project and state of the latest one at or before its activity, else of the earliest. |
| `LinkRollup.PrimaryIsLatest` | packages/canonical/src/project-linker.ts:721-760 | A session is shown under the project of its latest committed turn with a project, without one under that of its latest turn with a project, and keeps what it had exactly when no turn of it has a project. |
| `LinkRollup.BuildTurnsBySessionId` | packages/canonical/src/project-linker.ts:220-231 | The table holds, for every session, exactly its turns in their order. |
| `LinkRollup.RollUp` | packages/canonical/src/project-linker.ts:147-168 | The counts of a project are the numbers of its committed and candidate turns and its sessions. |
| `LinkRollup.SettledTurnsAreConserved` | packages/canonical/src/project-linker.ts:147-186 | Over distinct projects, counted turns, unlinked turns and turns with an empty id add up to the turn total. |
| `LinkRollup.TurnsAreConserved` | packages/canonical/src/project-linker.ts:130-186 | For turns that arrive unlinked, counted, unlinked and blank-overridden turns add up to the turn total. |
| `LinkRollup.ConservationIff` | packages/canonical/src/project-linker.ts:130-186 | Counted and unlinked turns alone add up to the total if and only if no turn is overridden to the empty project id. |
| `LinkRollup.DeriveSnapshot` | packages/canonical/src/project-linker.ts:67-195 | The snapshot: output turns match input turns one for one, each project's counts are those of its turns, and every session is decorated by its own turns. |
| `LinkRollup.LinkingForgetsOrder` | packages/canonical/src/project-linker.ts:84-94 | Feeding the observations in another order gives the same groups and the same links. |
| `EditDistance.FillRow` | apps/cli/src/args.ts:1291-1311 | One turn of the outer loop fills the next row with the recursive distances. |
| `EditDistance.Levenshtein` | apps/cli/src/args.ts:1291-1311 | The rolling two-row program returns the recursive edit distance. |
| `EditDistance.DistanceIsLeastEdits` | apps/cli/src/args.ts:1291-1311 | The distance is the least number of single insertions, deletions and replacements of UTF-16 units between two strings. |
| `EditDistance.DistanceZeroIff` | apps/cli/src/args.ts:1291-1293 | The distance is 0 if and only if the strings are equal. |
| `EditDistance.DistanceSymmetric` | apps/cli/src/args.ts:1291-1311 | The distance is symmetric. |
| `EditDistance.TriangleInequality` | apps/cli/src/args.ts:1291-1311 | The distance satisfies the triangle inequality. |
| `EditDistance.DistanceToCompletion` | apps/cli/src/args.ts:1277-1281 | A completion is as far away as it is longer. |
| `Suggestions.ClosestMatches` | apps/cli/src/args.ts:1271-1289 | The suggestions are the ranked candidates cut to the limit. |
| `Suggestions.RankedMembers` | apps/cli/src/args.ts:1277-1284 | A candidate is ranked exactly when its distance is at most 2, or at most 3 and it completes the target. |
| `Suggestions.KeptIffNear` | apps/cli/src/args.ts:1277-1284 | A candidate is kept exactly when at most two single edits reach it, or it completes a non-empty target by at most three characters. |
| `Suggestions.CutKeepsTheBest` | apps/cli/src/args.ts:1284-1288 | What the limit cuts off ranks no better than anything that stays. |
| `RelatedWork.Builder.Merge` | packages/canonical/src/related-work.ts:223-244 | Merging updates one entry of one session: earliest creation, latest update, union of references, the first tool reference and the last status. |
| `RelatedWork.Builder.AddFragment` | packages/canonical/src/related-work.ts:31-70 | A fragment merges exactly its contributions: a delegation under the child and the parent, an automation run under its evidence session and parent. |
| `RelatedWork.BuildIndex` | packages/canonical/src/related-work.ts:23-82 | The index is the sorted listing of the fold over all fragments. |
| `RelatedWork.ResolveForgetsOrder` | packages/canonical/src/related-work.ts:278-290 | What a reference means does not depend on the order of the sessions. |
| `RelatedWork.EntriesSumUp` | packages/canonical/src/related-work.ts:223-244 | Every entry's creation time is the minimum, its update time the maximum and its references the union over exactly the contributions that go to it, and there is an entry wherever one went. |
| `RelatedWork.EntriesForgetOrder` | packages/canonical/src/related-work.ts:31-70 | Permuting or repeating fragments changes no entry's time span or references. |
| `RelatedWork.IndexForgetsOrder` | packages/canonical/src/related-work.ts:72-81 | The index has the same sessions and under each the same list, in the same order, for every order of the fragments. |
| `RelatedWork.LastStatusFirstTool` | packages/canonical/src/related-work.ts:234-240 | What does depend on the order: an entry has the status of the last contribution that has one and the tool reference of the first that has one. |
| `RelatedWork.PureIffFaithful` | packages/canonical/src/related-work.ts:131-172 | Every entry is about one relation exactly when no two relations of a session have one id. |
| `RelatedWork.ParentsCollide` | packages/canonical/src/related-work.ts:131-172 | Parents whose ids differ in one character that ids replace by a hyphen get one entry under a child. |
| `RelatedWork.PairedIff` | packages/canonical/src/related-work.ts:40-55 | For all sessions and fragments, every outbound delegation entry has an inbound one under the child that names its parent and carries all its references if and only if, for every outbound contribution that makes an entry, the entry that would answer it is made by a contribution about the same delegation and takes in every fragment of the outbound one. |
| `RelatedWork.DelegationsPairUp` | packages/canonical/src/related-work.ts:40-55 | In particular delegations pair up whenever no two relations of a session have one id. |
| `RelatedWork.DelegationIsReferenced` | packages/canonical/src/related-work.ts:40-55 | Every delegated fragment is referenced by the entries that its contributions go to. |
| `RelatedWork.CollidingParentsUnpaired` | packages/canonical/src/related-work.ts:40-55 | Two parents of one child whose ids collide: the second one's outbound entry has no inbound counterpart. |
| `MaskText.FindAll` | apps/web/lib/mask-utils.ts:147-158 | The loop over indexOf finds the matches of the specification. |
| `MaskText.FindMatches` | apps/web/lib/mask-utils.ts:97-163 | The matches of a template, for each kind of template. |
| `MaskText.OccurrencesAreCovered` | apps/web/lib/mask-utils.ts:147-158 | Every occurrence of a pattern begins inside one of its matches. |
| `MaskText.SelectFrom` | apps/web/lib/mask-utils.ts:37-47 | The matches of one template are accepted greedily after what earlier templates got. |
| `MaskText.MaskingIsGreedyMaximal` | apps/web/lib/mask-utils.ts:22-48 | Accepted regions are pairwise disjoint, and every rejected match overlaps an accepted region of a template of the same or higher precedence. |
| `MaskText.Cut` | apps/web/lib/mask-utils.ts:53-76 | The cut segments, masks lifted, concatenate to the text; hidden and visible characters add up to its length; and the masked segments are the collapsing regions in order. |
| `MaskText.ApplyMasks` | apps/web/lib/mask-utils.ts:17-79 | The whole of masking: reversible segments, never none, whose masks are exactly the greedily accepted collapsing regions in text order. |
| `MaskText.CountIsLengthIff` | apps/web/lib/mask-utils.ts:234-241 | The counted original characters are the length of the text if and only if no collapsing template with an empty prefix applies to an empty text. |
| `KeyDecoder.Decoder.Push` | apps/lite-tui/src/keys.ts:39-55 | Push drains exactly the keys of the specification, and keeps what is pending. |
| `KeyDecoder.Decoder.FlushPendingEscape` | apps/lite-tui/src/keys.ts:58-62 | A lone pending Escape becomes the Escape key, and nothing else does. |
| `KeyDecoder.PendingIsShort` | apps/lite-tui/src/keys.ts:39-113 | What stays pending is empty, or starts with ESC and has at most 16 units. |
| `KeyDecoder.PendingIsSuffix` | apps/lite-tui/src/keys.ts:39-55 | What stays pending is a suffix of the input. |
| `KeyDecoder.ChunkIndependenceIff` | apps/lite-tui/src/keys.ts:39-113 | Pushing a text and then any other is pushing them at once, for every other, if and only if draining the first drops no over-long sequence and does not end in a lone high surrogate. |
| `KeyDecoder.UnsafeSplit` | apps/lite-tui/src/keys.ts:92-113 | Where it does, there is a continuation that tells the two ways of pushing apart. |
| `KeyDecoder.PlainTextIsTyped` | apps/lite-tui/src/keys.ts:68-90 | Plain text comes out whole and in order as typed keys, with nothing pending. |
| `LiteText.ClipLine` | apps/lite-tui/src/text.ts:76-93 | The whole line if it fits; otherwise its longest prefix that leaves a column, and an ellipsis; never wider than asked. |
| `LiteText.BreakWord` | apps/lite-tui/src/text.ts:148-182 | A word wider than the line is broken unit by unit; what shows is kept, lines fit and are full. |
| `LiteText.AddWord` | apps/lite-tui/src/text.ts:148-182 | A word goes on the line if it fits there and on the next otherwise; what shows is kept. |
| `LiteText.WrapParagraph` | apps/lite-tui/src/text.ts:148-182 | What shows is kept in order, every line fits when the width is 2 or nothing is wide, and no line is broken early. |
| `LiteText.WrapText` | apps/lite-tui/src/text.ts:128-146 | Paragraph by paragraph, nothing that shows is lost or moved, and every line fits exactly when the target is 2 or no wide unit shows. |
| `LiteText.CleanIsClean` | apps/lite-tui/src/text.ts:128-146 | A cleaned paragraph has single spaces only, and none at its ends. |
| `TuiWrap.AdvancesIff` | apps/tui/src/browser.ts:1709-1740 | The index wrap makes progress from every start if and only if no character is wider than the line; for every text at width 2. |
| `TuiWrap.EndsIff` | apps/tui/src/browser.ts:1709-1740 | The loop, started at the beginning of a text, ends if and only if no character is wider than the line. |
| `TuiWrap.ScanLine` | apps/tui/src/browser.ts:1712-1725 | The inner scan finds how far the line reaches and the last space on the way. |
| `TuiWrap.WrapParagraph` | apps/tui/src/browser.ts:1709-1740 | The wrap program returns the lines of the specification. |
| `TuiWrap.LineIsGreedy` | apps/tui/src/browser.ts:1709-1740 | A line fits, and it runs to the end, or ends at the last space that fits, or is full. |
| `TuiWrap.LinesFit` | apps/tui/src/browser.ts:1709-1740 | Every line fits. |
| `TuiWrap.LinesRebuildText` | apps/tui/src/browser.ts:1709-1740 | With one space put back at every soft break, the lines are the text. |
| `LiteRender.RenderScrollablePane` | apps/lite-tui/src/render.ts:840-870 | The pane's lines, and the bound that it reports when it scrolls. |
| `LiteRender.PaneAccountsForRows` | apps/lite-tui/src/render.ts:839-870 | A pane is exactly as tall as asked; shown rows and hint counts add up to all rows from three lines on, and exactly when for fewer. |
| `LiteRender.PaneReachesIff` | apps/lite-tui/src/render.ts:850-868 | Every row is on the screen at some offset within the bound if and only if the rows fit or the pane is four lines tall. |
| `LiteRender.LastRowAtTheLimit` | apps/lite-tui/src/render.ts:856-868 | At the bound the last row is shown, from three lines on. |
| `LiteRender.ScrollWindow` | apps/lite-tui/src/render.ts:785-802 | An overlay's rows under its two pinned lines, and the bound that it reports. |
| `LiteRender.OverlayAccountsForLines` | apps/lite-tui/src/render.ts:781-802 | An overlay accounts for every line at every offset and is no taller than the content. |
| `LiteRender.RenderConversation` | apps/lite-tui/src/render.ts:573-588 | The conversation's window, and the bound that it reports. |
| `LiteRender.ConversationAccountsForLines` | apps/lite-tui/src/render.ts:574-588 | The conversation accounts for every line at every offset and is no taller than the content. |
| `LiteRender.ViewportWindow` | apps/lite-tui/src/render.ts:872-886 | The window is as large as it may be, inside the list, holds the selection, and is centred unless at an end. |
| `LiteRender.RenderListPane` | apps/lite-tui/src/render.ts:241-254 | A list pane shows the rows of its window between its hints. |
| `LiteRender.ListAccountsForRows` | apps/lite-tui/src/render.ts:241-254 | A list pane accounts for every row, and takes at most three lines more than its window. |
| `LiteRender.RenderRightColumn` | apps/lite-tui/src/render.ts:206-215 | The right column: the turns, a blank and the detail pane, cut to the content height. |
| `LiteRender.RenderTwoColumn` | apps/lite-tui/src/render.ts:191-226 | The two columns side by side, and the bound of the detail pane. |
| `LiteRender.DetailKeepsItsLines` | apps/lite-tui/src/render.ts:206-215 | The cut loses no line of the detail pane exactly when the turns leave it five lines, and a focused detail pane always has them. |
| `LiteRender.RenderBody` | apps/lite-tui/src/render.ts:127-144 | The body for an overlay, the conversation, a narrow screen or two columns, and the bounds that it reports. |
| `LiteRender.RenderFrame` | apps/lite-tui/src/render.ts:94-118 | The frame and its bounds, for every screen size. |
| `LiteRender.FrameHeightIff` | apps/lite-tui/src/render.ts:99 | A frame has exactly the lines asked for if and only if at least fourteen are asked for. |
| `LiteRender.EveryRowIsReachable` | apps/lite-tui/src/render.ts:94-118 | At every screen size every row of the overlay, conversation or detail pane that the keys scroll is on the screen at some offset within the reported bound. |
| `LiteRender.ActivePaneAccounts` | apps/lite-tui/src/render.ts:127-144 | At every offset what the scrolled pane shows and what its hints count make up all of its rows. |
| `LiteRender.ClampedFrameIsTheSame` | apps/lite-tui/src/render.ts:93-118 | Bounds do not depend on offsets, and the frame at an offset past its bound is the frame at the bound. |
| `LiteRender.SelectionOnScreen` | apps/lite-tui/src/render.ts:241-254 | The selection of a focused list is on the screen. |
| `LiteRender.SelectedTurnKeptIff` | apps/lite-tui/src/render.ts:208-212 | With the detail pane focused, the selected turn stays in the cut turns pane exactly when its line comes before the cut. |
| `LiteRender.SelectedTurnCutExample` | apps/lite-tui/src/render.ts:208-212 | At the smallest screen height, with the fifth of nine turns selected, a focused detail pane cuts it out of the turns pane. |
| `LiteRender.LeftListFitsIff` | apps/lite-tui/src/render.ts:197-204 | The left list fits unless it is scrolled away from both ends; then only its lower hint is cut off. |
| `LiteLists.BuildTurnDisplayItems` | apps/lite-tui/src/render.ts:363-406 | The nested loops over the runs of one session give the rows of the turns pane: a heading before each run, then its turns. |
| `LiteLists.RowsShowTurns` | apps/lite-tui/src/render.ts:363-406 | Every turn is shown by exactly one row; the other rows are headings. |
| `LiteLists.SelectionIsDrawn` | apps/lite-tui/src/render.ts:333-356 | In bounds, the project, session, search group or turn that is selected in the focused list is on the screen at every screen size, headings accounted for. |
| `LiteState.GroupResults` | apps/lite-tui/src/state.ts:287-299 | The loop with its map from keys to groups computes the grouping function. |
| `LiteState.SearchGroupsPartition` | apps/lite-tui/src/state.ts:285-300 | Groups partition the results by project: each holds its results in order and is named after the first, and groups come in first-seen order. |
| `LiteState.ClampIsRetraction` | apps/lite-tui/src/state.ts:499-523 | Clamping puts every state in bounds and changes exactly the states that are not. |
| `LiteState.ReduceKeepsBounds` | apps/lite-tui/src/state.ts:125-237 | Every action keeps all five selections in bounds. |
| `LiteState.MovementSelects` | apps/lite-tui/src/state.ts:163-174 | In every list the arrow and page keys select the one that is one or fifteen further, or the nearest end, and the jump keys the first and the last. |
| `LiteState.MovementScrolls` | apps/lite-tui/src/state.ts:363-374 | In every scrolling pane the same keys scroll by as much and stay within the known bound. |
| `LiteState.MoveUndoneIff` | apps/lite-tui/src/state.ts:363-390 | Moving back undoes a move exactly when the move was not cut short, or started where the way back is. |
| `LiteState.RetreatUndoesDrillIff` | apps/lite-tui/src/state.ts:176-190 | Retreating undoes drilling exactly when there is something to drill into and the pane drilled into was not scrolled. |
| `LiteState.OnlyDrillOpensConversation` | apps/lite-tui/src/state.ts:176-181 | The conversation opens by exactly one action, from the uncovered detail pane. |
| `LiteState.SearchIsAnExcursion` | apps/lite-tui/src/state.ts:182-199 | A search, whatever is done in it, ended by Escape in its list, leaves the browser listing the same turns with the same one selected. |
| `LiteState.SearchRunKeepsSelection` | apps/lite-tui/src/state.ts:192-275 | Every run that stays in search mode keeps the browse selection, and the bounds. |
| `LiteState.BackspaceUndoesTypingIff` | apps/lite-tui/src/state.ts:201-204 | Backspace takes back a key press exactly when it typed one character that did not complete a surrogate pair. |
| `LiteState.FocusTurn` | apps/lite-tui/src/state.ts:459-483 | The loop over the projects finds the first that lists the turn. |
| `LiteSession.TypingIsTyping` | apps/lite-tui/src/input.ts:19-33 | While a search is edited every printable key is typed, only the two interrupts end the session, and they end it from everywhere. |
| `LiteSession.Interactive.constructor` | apps/lite-tui/src/index.ts:344-346 | Wherever the command line enters it, the session starts in order, with a frame of it on the screen. |
| `LiteSession.Interactive.Paint` | apps/lite-tui/src/index.ts:170-183 | After a repaint the screen shows the state, scrolled within the bounds of the frame, and nothing that is selected has changed. |
| `LiteSession.Interactive.Refresh` | apps/lite-tui/src/index.ts:200-205 | With no scan in flight a refresh becomes the only one and changes nothing but the message; with one in flight it does nothing at all. |
| `LiteSession.Interactive.RefreshResolved` | apps/lite-tui/src/index.ts:206-218 | A rescan that succeeds leaves a fresh browser over the new snapshot, in order, without the old contexts, and open to the next scan. |
| `LiteSession.Interactive.RefreshRejected` | apps/lite-tui/src/index.ts:211-218 | A rescan that fails leaves snapshot, contexts, selection, scrolling and screen as they were, and only changes the message and the flag. |
| `LiteSession.Interactive.LoadContext` | apps/lite-tui/src/index.ts:221-248 | Return in the detail pane drills when the context is there, starts one scan otherwise unless one is in flight, and keeps the session in order. |
| `LiteSession.Interactive.ContextResolved` | apps/lite-tui/src/index.ts:249-262 | An arrived context is kept beside those fetched before, and the conversation opens exactly when the view that asked still wants it. |
| `LiteSession.Interactive.ContextRejected` | apps/lite-tui/src/index.ts:258-262 | A context load that fails leaves everything as it was but for the message and the flag. |
| `LiteSession.Interactive.HandleKey` | apps/lite-tui/src/index.ts:280-297 | A key has the effect that the input map gives it, keeps the session in order, and never replaces the snapshot or a context. |
| `LiteSession.Interactive.Resize` | apps/lite-tui/src/index.ts:317-320 | A resize keeps what is selected, fetched and in flight, and the screen shows it at the new size. |
| `LiteSession.Interactive.Handle` | apps/lite-tui/src/index.ts:299-326 | One event is one step of the run, and keeps the invariant. |
| `LiteSession.SessionsAreOrderly` | apps/lite-tui/src/index.ts:145-366 | Every session, wherever the command line enters it and whatever happens in it, keeps the invariant: at most one scan in flight and the flag says so, the snapshot a pending load was asked on is still there, selections in bounds, an open conversation has its turn, the screen shows the state scrolled within bounds. |
| `LiteSession.RunKeepsInvariant` | apps/lite-tui/src/index.ts:170-297 | Every run keeps the invariant. |
| `LiteSession.StepKeepsInvariant` | apps/lite-tui/src/index.ts:170-297 | Every event keeps the invariant. |
| `LiteSession.PaintShowsState` | apps/lite-tui/src/index.ts:170-175 | Although offsets are clamped after the frame is drawn, the painted frame is that of the clamped state. |
| `LiteSession.EnteredFits` | apps/lite-tui/src/index.ts:370-381 | Opening what the command line names keeps the selections in bounds and the conversation closed. |
| `LiteSession.EntryPointsReach` | apps/lite-tui/src/index.ts:370-381 | From the command line, a project, session or turn that the snapshot lists is shown and selected with no message; one that it does not list leaves the browser as usual, with a message. |
| `LiteSession.EntrySearchLiesOver` | apps/lite-tui/src/index.ts:370-381 | A query given along with it is searched for at once; Escape leads back to what the entry point shows, with the same turn selected; and a message that the entry point was not found is cleared. |
| `LiteSession.ResolutionFrees` | apps/lite-tui/src/index.ts:216-218 | A resolved scan always frees the session for the next one. |
| `LiteSession.FailedScanKeepsSession` | apps/lite-tui/src/index.ts:206-215 | A failed scan leaves everything as it was but for the message and the flag. |
| `LiteSession.ScansStartAlone` | apps/lite-tui/src/index.ts:198-229 | A scan starts only on a key press, when none is in flight. |
| `LiteSession.OnlyRefreshReplacesSnapshot` | apps/lite-tui/src/index.ts:206-209 | Nothing but a refresh that succeeds replaces the snapshot, and until then a context that was fetched for a turn stays as it is. |
| `LiteSession.ConversationOpensIff` | apps/lite-tui/src/index.ts:252-257 | The conversation opens exactly by Return with the context at hand, or by a context that arrives for the turn still selected, and only from the uncovered detail pane of a running session. |
| `LiteSession.OpenConversationKeepsTurn` | apps/lite-tui/src/index.ts:170-297 | While the conversation stays open, its turn and its snapshot stay. |
| `LiteSession.SelectionStaysOnScreen` | apps/lite-tui/src/index.ts:170-183 | In every session, at every moment, what is selected in the focused list is on the screen. |
| `LiteSession.KeysReachEveryRow` | apps/lite-tui/src/index.ts:280-297 | In every session, at every moment, some presses of one arrow key bring any row of the overlay, the conversation or the detail pane on the screen. |
| `LiteSession.KeysSelectEveryMember` | apps/lite-tui/src/index.ts:280-297 | In every session, at every moment, some presses of one arrow key select any member of the focused list. |
| `ProjectScope.AncestorsAtOneDepth` | apps/cli/src/resolvers.ts:177-179 | Two ancestors of one normalised path have one depth if and only if they are equal. |
| `ProjectScope.BelowByNames` | apps/cli/src/resolvers.ts:235-247 | For all normalised paths (from the root, on a drive, on a share or relative) the string test is containment by names from the same point, except that nothing is below a root and that every share is below the root directory. |
| `ProjectScope.IdentityIsNormal` | packages/domain/src/index.ts:1088-1106 | Every such path has two slashes in a row at its start only. |
| `ProjectScope.BelowSlashIff` | apps/cli/src/resolvers.ts:242-247 | Below an identity that ends in a slash there is nothing, except that the shares are below the root directory. |
| `ProjectScope.ResolveProjectScope` | apps/cli/src/resolvers.ts:126-220 | The stages compute the scope, or nothing where the source throws. |
| `ProjectScope.UpwardFindsDeepest` | apps/cli/src/resolvers.ts:163-187 | Going upward finds exactly the projects at the deepest ancestor, all at one workspace, sorted. |
| `ProjectScope.MainsOfPath` | apps/cli/src/resolvers.ts:150-187 | A path stands for the projects at exactly its workspace, or else for those at its deepest ancestor, and the upward note is given exactly then. |
| `ProjectScope.SubProjectsApart` | apps/cli/src/resolvers.ts:189-205 | Sub-projects are exactly the projects strictly below the shared workspace, and none of them is a main. |
| `ProjectScope.RootInputIff` | apps/cli/src/resolvers.ts:189-213 | A root as input is resolved if and only if a project is at it or above it, or it is the root directory and a project is on a share. |
| `ProjectScope.RootFindsOneIff` | apps/cli/src/resolvers.ts:189-213 | With / as input a single project is found exactly when it is at / or on a share. |
| `ProjectScope.MainsForgetOrder` | apps/cli/src/resolvers.ts:222-233 | The mains do not depend on the order in which the store lists projects. |
| `ProjectScope.ReferenceIsMainIff` | apps/cli/src/resolvers.ts:142-150 | A reference that is found is the main of its scope exactly when its project has a workspace. |
| `ProjectScope.LostReferenceExample` | apps/cli/src/resolvers.ts:191-213 | A project without a workspace is found by its reference and then reported as missing. |

## Left out

- StreamRoundTrip.RoundTripIff: the elements of an array field are objects or arrays, as the exporter writes them; a scalar element would be skipped by the scanner.
- TuiWrap.WrapParagraph: requires that no character is wider than the line; otherwise the source does not end (EndsIff).
- LiteText.WrapText: units stand for grapheme clusters with a given width of 0, 1 or 2; segmentation, the width tables and colour sequences other than a line's having one are not modelled.
- MaskText.ApplyMasks: regular expressions are the ordered non-empty ranges that they find; their execution, the time limit and the cap on matches are not modelled. A `contains` pattern is not empty: with an empty one the source does not end.
- LiteRender.EveryRowIsReachable: rows are known by pane and index; their text, colours and clipping to the width are not modelled.
- LiteSession.SessionsAreOrderly: the screen is compared by rows and bounds; how many rows an overlay, the detail pane and the conversation have is a function of snapshot, contexts, state and screen size. Escape codes, raw mode, signals other than as the end of the session, and the timer of a lone Escape are not modelled. The renderer and the construction of the read model do not throw.
- LiteState.GroupResults: the search of the snapshot is a function from queries to ranked results; its cache and its ranking are not modelled.
- ProjectScope.ResolveProjectScope: workspace paths are given normalised, in one of the forms of BelowByNames; the normalisation itself, the expansion of `~`, the reference resolver and the text of the note are not modelled.
- LinkProjects.ProjectIdsAreUnique: the digest of a key is injective, and keys are structured, so that delimiters inside their parts cannot collide.
- LinkRules.ClassifyIsKeyDetermined: weak workspace paths fold the case of ASCII letters only.
- ImportPlan.ImportBundle: file reads, checks of checksums and materialised raw blobs are one preparation that may fail; a refused write is a transaction that changes nothing; counts and display fields of plan entries, and the project counts before and after, are not modelled.
- KeyDecoder.Decoder.Push: modifier digits are read as unbounded integers.
- CanonicalJson.StringifyIsNormalForm: values are those that JSON.parse gives, so undefined and NaN do not occur; a number is known by the text that it prints as, so that -0 is 0.
- StreamSplitter.ParsePayloadStreaming: the parsing of the extracted texts as JSON and read errors are not modelled.
- RelatedWork.BuildIndex: the raw detail and the titles of an entry, and the spellings of payload fields; references are sets, listed sorted.
- LinkRollup.DeriveSnapshot: timestamps are integers; hydration of observations, display names, path texts, and the order of the projects in the output.
- MaskText.Cut: the trimming of canonical text, and segments that masking does not produce.
- Comparison by locale is a given total order wherever it occurs.
- The HTTP API, the web client, the ink terminal client beyond its word wrap, adapters, storage, usage statistics, remote agents and export: plumbing, or sums and lookups that would only add easy members.
