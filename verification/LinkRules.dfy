/** Link rules: how an observation is classified, how rules are compared, and how confident a group
    of observations makes a project. Confidences are integer hundredths. */
module LinkRules {
  import opened Options
  import opened Sequences
  import opened Sorting

  /** JavaScript truthiness of an optional string. */
  predicate Truthy(s: Option<string>) {
    s.Some? && s.value != ""
  }

  function OrElse(a: Option<string>, b: Option<string>): Option<string> {
    if a.Some? then a else b
  }

  datatype LinkageState = Committed | Candidate

  datatype LinkReason =
    | RepoFingerprintMatch | RepoRemoteMatch | RepoRootMatch | SourceNativeProject
    | WorkspacePathContinuity | WeakPathHint | MetadataHint | ManualOverride

  /** The text under which observations are linked, by its parts. */
  datatype RuleKey =
    | FingerprintKey(fingerprint: string, workspace: string)
    | RemoteKey(host: string, remote: string, workspace: string)
    | RepoRootKey(host: string, root: string, workspace: string)
    | NativeKey(host: string, native: string)
    | WorkspaceKey(host: string, workspace: string)
    | RemoteHintKey(host: string, remote: string)

  datatype Rule = Rule(state: LinkageState, reason: LinkReason, confidence: int, key: RuleKey)

  datatype Observation = Observation(
    id: string, session: string, platform: string, host: string, observedAt: int,
    workspacePath: Option<string>, workspaceSubpath: Option<string>,
    repoRoot: Option<string>, repoRemote: Option<string>, repoFingerprint: Option<string>,
    nativeRef: Option<string>)

  datatype Classified = Classified(observation: Observation, committed: seq<Rule>, candidate: seq<Rule>)

  // ------------------------------------------------- weak workspace paths

  function LowerChar(c: char): char {
    if 'A' <= c <= 'Z' then c - 'A' + 'a' else c
  }

  function Lower(s: string): string {
    Map(s, c => LowerChar(c))
  }

  predicate Includes(s: string, part: string) {
    exists i | 0 <= i <= |s| :: part <= s[i..]
  }

  /** The last segment of a path; trailing slashes do not count. */
  function Basename(s: string): string {
    if s == "" then ""
    else if s[|s| - 1] == '/' then Basename(s[..|s| - 1])
    else LastSegment(s)
  }

  function LastSegment(s: string): string {
    if s == "" || s[|s| - 1] == '/' then "" else LastSegment(s[..|s| - 1]) + [s[|s| - 1]]
  }

  predicate IsWeakWorkspacePath(path: string) {
    var normalized := Lower(path);
    var basename := Basename(normalized);
    || normalized == "/root" || normalized == "/tmp" || "/tmp/" <= normalized
    || Includes(normalized, "/.config/aionui/aionui/claude-temp-")
    || Includes(normalized, "/.config/aionui/aionui/codex-temp-")
    || basename == "tmp" || basename == "temp" || basename == "scratchpad"
    || "claude-temp-" <= basename || "codex-temp-" <= basename
  }

  // ------------------------------------------------- classification

  function ClassifyObservation(o: Observation, state: LinkageState): seq<Rule> {
    var identity := OrElse(o.workspaceSubpath, o.workspacePath);
    if state == Committed then
      (if Truthy(o.repoFingerprint) && Truthy(identity) then
         [Rule(Committed, RepoFingerprintMatch, 95, FingerprintKey(o.repoFingerprint.value, identity.value))]
       else [])
      + (if Truthy(o.repoRemote) && o.host != "" && Truthy(identity) then
           [Rule(Committed, RepoRemoteMatch, 85, RemoteKey(o.host, o.repoRemote.value, identity.value))]
         else [])
      + (if Truthy(o.repoRoot) && o.host != "" && Truthy(identity) then
           [Rule(Committed, RepoRootMatch, 82, RepoRootKey(o.host, o.repoRoot.value, identity.value))]
         else [])
    else
      (if Truthy(o.nativeRef) && o.host != "" then
         [Rule(Candidate, SourceNativeProject, 70, NativeKey(o.host, o.nativeRef.value))]
       else [])
      + (if Truthy(o.workspacePath) && o.host != "" then
           var weak := IsWeakWorkspacePath(o.workspacePath.value);
           [Rule(Candidate, if weak then WeakPathHint else WorkspacePathContinuity, if weak then 42 else 55,
                 WorkspaceKey(o.host, o.workspacePath.value))]
         else [])
      + (if Truthy(o.repoRemote) && o.host != "" then
           [Rule(Candidate, MetadataHint, 60, RemoteHintKey(o.host, o.repoRemote.value))]
         else [])
  }

  function Classify(o: Observation): Classified {
    Classified(o, ClassifyObservation(o, Committed), ClassifyObservation(o, Candidate))
  }

  function RulesOf(c: Classified, state: LinkageState): seq<Rule> {
    if state == Committed then c.committed else c.candidate
  }

  /** The rule that a key stands for. */
  function RuleOfKey(key: RuleKey): Rule {
    match key
    case FingerprintKey(_, _) => Rule(Committed, RepoFingerprintMatch, 95, key)
    case RemoteKey(_, _, _) => Rule(Committed, RepoRemoteMatch, 85, key)
    case RepoRootKey(_, _, _) => Rule(Committed, RepoRootMatch, 82, key)
    case NativeKey(_, _) => Rule(Candidate, SourceNativeProject, 70, key)
    case WorkspaceKey(_, path) =>
      if IsWeakWorkspacePath(path) then Rule(Candidate, WeakPathHint, 42, key)
      else Rule(Candidate, WorkspacePathContinuity, 55, key)
    case RemoteHintKey(_, _) => Rule(Candidate, MetadataHint, 60, key)
  }

  /** The key determines the whole rule, its linkage state included: equal keys mean equal rules,
      and no key is shared between the committed and the candidate scope. */
  predicate KeyDetermined(rules: seq<Rule>, state: LinkageState) {
    forall r | r in rules :: r == RuleOfKey(r.key) && r.state == state
  }

  predicate WellClassified(c: Classified) {
    KeyDetermined(c.committed, Committed) && KeyDetermined(c.candidate, Candidate)
  }

  lemma ClassifyIsKeyDetermined(o: Observation)
    ensures WellClassified(Classify(o))
  {
    CommittedAreKeyDetermined(o);
    CandidatesAreKeyDetermined(o);
  }

  lemma CommittedAreKeyDetermined(o: Observation)
    ensures KeyDetermined(ClassifyObservation(o, Committed), Committed)
  {
    forall r | r in ClassifyObservation(o, Committed) ensures r == RuleOfKey(r.key) && r.state == Committed {
      assert r.key.FingerprintKey? || r.key.RemoteKey? || r.key.RepoRootKey?;
    }
  }

  lemma CandidatesAreKeyDetermined(o: Observation)
    ensures KeyDetermined(ClassifyObservation(o, Candidate), Candidate)
  {
    forall r | r in ClassifyObservation(o, Candidate) ensures r == RuleOfKey(r.key) && r.state == Candidate {
      assert r.key.NativeKey? || r.key.WorkspaceKey? || r.key.RemoteHintKey?;
    }
  }

  // ------------------------------------------------- comparing rules

  function Priority(reason: LinkReason): nat {
    match reason
    case RepoFingerprintMatch => 0
    case RepoRemoteMatch => 1
    case RepoRootMatch => 2
    case SourceNativeProject => 3
    case WorkspacePathContinuity => 4
    case WeakPathHint => 5
    case MetadataHint => 6
    case ManualOverride => 7
  }

  /** `compareObservationRules(left, right) <= 0`, where `keyLe` orders the keys as texts. */
  predicate RuleLe(keyLe: (RuleKey, RuleKey) -> bool, left: Rule, right: Rule) {
    if Priority(left.reason) != Priority(right.reason) then Priority(left.reason) < Priority(right.reason)
    else if left.confidence != right.confidence then left.confidence > right.confidence
    else keyLe(left.key, right.key)
  }

  function RuleOrder(keyLe: (RuleKey, RuleKey) -> bool): (Rule, Rule) -> bool {
    (left, right) => RuleLe(keyLe, left, right)
  }

  lemma RuleOrderIsTotal(keyLe: (RuleKey, RuleKey) -> bool)
    requires TotalOrder(keyLe)
    ensures TotalPreorder(RuleOrder(keyLe))
    ensures forall a, b :: RuleLe(keyLe, a, b) && RuleLe(keyLe, b, a) ==> a.key == b.key
  {
    var le := RuleOrder(keyLe);
    forall a, b, c | le(a, b) && le(b, c) ensures le(a, c) {
      assert RuleLe(keyLe, a, b) && RuleLe(keyLe, b, c);
      assert keyLe(a.key, b.key) && keyLe(b.key, c.key) ==> keyLe(a.key, c.key);
    }
    forall a, b ensures le(a, b) || le(b, a) {
      assert keyLe(a.key, b.key) || keyLe(b.key, a.key);
    }
  }

  // ------------------------------------------------- confidence

  datatype Metrics = Metrics(sessionCount: nat, platformCount: nat, hasRepoRoot: bool)

  function ComponentMetrics(observations: seq<Observation>): Metrics {
    Metrics(|set o | o in observations :: o.session|, |set o | o in observations :: o.platform|,
            exists o | o in observations :: Truthy(o.repoRoot))
  }

  function Clamp(value: int, low: int, high: int): int {
    var raised := if value < low then low else value;
    if raised > high then high else raised
  }

  function Bonus(condition: bool, amount: int): int {
    if condition then amount else 0
  }

  function WorkspaceContinuityConfidence(m: Metrics): int {
    Clamp(68 + Bonus(m.sessionCount >= 2, 12) + Bonus(m.sessionCount >= 3, 5) + Bonus(m.platformCount >= 2, 3)
          + Bonus(m.hasRepoRoot, 3), 68, 88)
  }

  /** `deriveProjectGroupConfidence`. */
  function GroupConfidence(state: LinkageState, reason: LinkReason, confidence: int, m: Metrics): int {
    if state == Committed then confidence
    else match reason
      case WorkspacePathContinuity => WorkspaceContinuityConfidence(m)
      case SourceNativeProject =>
        Clamp(72 + Bonus(m.sessionCount >= 2, 8) + Bonus(m.sessionCount >= 3, 4) + Bonus(m.platformCount >= 2, 3),
              72, 87)
      case MetadataHint => Clamp(60 + Bonus(m.sessionCount >= 2, 8) + Bonus(m.platformCount >= 2, 4), 60, 78)
      case WeakPathHint =>
        Clamp(42 + Bonus(m.sessionCount >= 2, 8) + Bonus(m.sessionCount >= 3, 4) + Bonus(m.platformCount >= 2, 3),
              42, 60)
      case _ => confidence
  }

  /** Metrics of a component that are at least those of another. */
  predicate AtLeast(m: Metrics, n: Metrics) {
    m.sessionCount >= n.sessionCount && m.platformCount >= n.platformCount && (n.hasRepoRoot ==> m.hasRepoRoot)
  }

  /** More sessions, more platforms or a repository root never make a group less certain, and whatever the
      metrics a guess stays below every committed match and a weak path at the bottom. */
  lemma ConfidenceGrows(reason: LinkReason, confidence: int, m: Metrics, n: Metrics)
    requires AtLeast(m, n)
    ensures GroupConfidence(Candidate, reason, confidence, n) <= GroupConfidence(Candidate, reason, confidence, m)
    ensures WorkspaceContinuityConfidence(n) <= WorkspaceContinuityConfidence(m)
    ensures reason == WorkspacePathContinuity ==> 68 <= GroupConfidence(Candidate, reason, confidence, m) <= 88
    ensures reason == SourceNativeProject ==> 72 <= GroupConfidence(Candidate, reason, confidence, m) <= 87
    ensures reason == MetadataHint ==> 60 <= GroupConfidence(Candidate, reason, confidence, m) <= 72
    ensures reason == WeakPathHint ==> 42 <= GroupConfidence(Candidate, reason, confidence, m) <= 57
  {}
}
