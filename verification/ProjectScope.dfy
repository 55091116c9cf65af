/** Which projects a path stands for. */
module ProjectScope {
  // Workspace paths are given as their normalised identities, and a reference that is no path as what the
  // reference resolver answers.

  import opened Options
  import opened Sequences
  import opened Sorting

  datatype Project = Project(id: string, name: string, workspace: Option<string>)

  datatype Scope = Scope(mains: seq<Project>, subs: seq<Project>, upward: bool)

  predicate Known(p: Project) {
    p.workspace.Some? && p.workspace.value != ""
  }

  // ------------------------------------------------- paths

  /** `text.split("/")`. */
  function Split(text: string): (parts: seq<string>)
    ensures parts != []
  {
    var k := SlashAt(text);
    if k == |text| then [text] else [text[..k]] + Split(text[k + 1..])
  }

  function SlashAt(text: string): (k: nat)
    ensures k <= |text| && (k < |text| ==> text[k] == '/')
    ensures forall i | 0 <= i < k :: text[i] != '/'
  {
    if text == "" || text[0] == '/' then 0 else 1 + SlashAt(text[1..])
  }

  function NotEmpty(): string -> bool {
    (part: string) => part != ""
  }

  /** The names along a path. */
  function Names(path: string): seq<string> {
    Filter(Split(path), NotEmpty())
  }

  function DepthOf(workspace: Option<string>): nat {
    if workspace.None? || workspace.value == "" then 0 else |Names(workspace.value)|
  }

  predicate IsBelow(path: string, ancestor: string) {
    path != ancestor && ancestor + "/" <= path
  }

  lemma {:induction false} SplitAtSlash(a: string, b: string)
    ensures Split(a + "/" + b) == Split(a) + Split(b)
    decreases a
  {
    var all, k := a + "/" + b, SlashAt(a);
    SlashAtIs(all, k);
    assert all[..k] == a[..k];
    if k == |a| {
      assert all[k + 1..] == b && a[..k] == a;
    } else {
      assert all[k + 1..] == a[k + 1..] + "/" + b;
      SplitAtSlash(a[k + 1..], b);
    }
  }

  lemma {:induction false} SlashAtIs(text: string, k: nat)
    requires k < |text| && text[k] == '/' && forall i | 0 <= i < k :: text[i] != '/'
    ensures SlashAt(text) == k
  {
    assert SlashAt(text) <= k;
  }

  lemma NamesAtSlash(a: string, b: string)
    ensures Names(a + "/" + b) == Names(a) + Names(b)
  {
    SplitAtSlash(a, b);
    FilterAppend(Split(a), Split(b), NotEmpty());
  }

  lemma NamedFirst(path: string)
    requires path != "" && path[0] != '/'
    ensures |Names(path)| > 0
  {
    var first := Split(path)[0];
    assert SlashAt(path) > 0 && first == path[..SlashAt(path)];
    assert first in Split(path);
    assert first in Names(path);
  }

  /** Two slashes in a row are only found at the start: what normalising a path leaves. */
  predicate Normal(path: string) {
    forall i | 0 < i < |path| - 1 :: !(path[i] == '/' && path[i + 1] == '/')
  }

  /** Of two ancestors of one path the longer lies deeper. */
  lemma LongerAncestorIsDeeper(path: string, a: string, b: string)
    requires Normal(path) && a != "" && |a| < |b| && IsBelow(path, a) && IsBelow(path, b)
    ensures |Names(a)| < |Names(b)|
  {
    var rest := b[|a| + 1..];
    assert b == path[..|b|] && a == path[..|a|] && path[|a|] == '/' && path[|b|] == '/';
    assert b == a + "/" + rest;
    assert |b| != |a| + 1;
    assert rest[0] == path[|a| + 1];
    NamesAtSlash(a, rest);
    NamedFirst(rest);
  }

  /** The tie that "shouldn't happen for paths" does not happen: ancestors of one path at one depth are one. */
  lemma AncestorsAtOneDepth(path: string, a: string, b: string)
    requires Normal(path) && a != "" && b != "" && IsBelow(path, a) && IsBelow(path, b)
    ensures |Names(a)| == |Names(b)| <==> a == b
  {
    if |a| < |b| {
      LongerAncestorIsDeeper(path, a, b);
    } else if |b| < |a| {
      LongerAncestorIsDeeper(path, b, a);
    } else {
      assert a == path[..|a|] && b == path[..|b|];
    }
  }

  // ------------------------------------------------- absolute paths by their names

  predicate Name(name: string) {
    name != "" && '/' !in name
  }

  function Joined(names: seq<string>): string {
    if names == [] then "" else "/" + names[0] + Joined(names[1..])
  }

  /** The absolute path with the given names. */
  function Absolute(names: seq<string>): string {
    if names == [] then "/" else Joined(names)
  }

  lemma {:induction false} PrefixByNames(xs: seq<string>, ys: seq<string>)
    requires (forall x | x in xs :: Name(x)) && (forall y | y in ys :: Name(y))
    ensures Joined(ys) + "/" <= Joined(xs) <==> ys < xs
    decreases ys
  {
    if ys == [] {
      assert Joined(ys) + "/" == "/";
    } else if xs == [] {
      assert !(ys < xs);
    } else {
      assert xs[0] in xs && ys[0] in ys;
      assert (forall x | x in xs[1..] :: Name(x)) && (forall y | y in ys[1..] :: Name(y));
      PrefixByNames(xs[1..], ys[1..]);
      if xs[0] == ys[0] {
        SamePrefix("/" + xs[0], Joined(ys[1..]) + "/", Joined(xs[1..]));
        assert Joined(ys) + "/" == "/" + xs[0] + (Joined(ys[1..]) + "/");
        assert ys < xs <==> ys[1..] < xs[1..];
      } else {
        FirstNameDiffers(xs, ys);
      }
    }
  }

  lemma SamePrefix(a: string, b: string, c: string)
    ensures a + b <= a + c <==> b <= c
  {
    if |b| <= |c| {
      assert (a + c)[..|a| + |b|] == a + c[..|b|];
      assert (a + b)[|a|..] == b && (a + c[..|b|])[|a|..] == c[..|b|];
    }
  }

  /** A place at which a text goes wrong as a prefix of another. */
  predicate DiffersAt(a: string, b: string, i: nat) {
    i < |a| && (i < |b| ==> a[i] != b[i])
  }

  lemma DifferentIsNoPrefix(a: string, b: string, i: nat)
    requires DiffersAt(a, b, i)
    ensures !(a <= b)
  {}

  lemma FirstNameDiffers(xs: seq<string>, ys: seq<string>)
    requires xs != [] && ys != [] && Name(xs[0]) && Name(ys[0]) && xs[0] != ys[0]
    ensures !(Joined(ys) + "/" <= Joined(xs))
  {
    var x, y, at := xs[0], ys[0], FirstDifference(xs[0], ys[0]);
    NextSlash(xs);
    NextSlash(ys);
    assert at < |y| ==> (Joined(ys) + "/")[1 + at] == y[at];
    assert at < |x| ==> Joined(xs)[1 + at] == x[at];
    DifferentIsNoPrefix(Joined(ys) + "/", Joined(xs), 1 + at);
  }

  /** The first place at which two texts are not the same, one of them being at an end or not. */
  function FirstDifference(x: string, y: string): (at: nat)
    requires x != y
    ensures at <= |x| && at <= |y|
    ensures (at < |x| && at < |y| && x[at] != y[at]) || (at == |x| < |y|) || (at == |y| < |x|)
  {
    if x == "" || y == "" || x[0] != y[0] then 0 else 1 + FirstDifference(x[1..], y[1..])
  }

  lemma NextSlash(xs: seq<string>)
    requires xs != []
    ensures |xs| > 1 ==> |Joined(xs)| > 1 + |xs[0]| && Joined(xs)[1 + |xs[0]|] == '/'
    ensures |xs| == 1 ==> |Joined(xs)| == 1 + |xs[0]|
    ensures (Joined(xs) + "/")[1 + |xs[0]|] == '/'
  {}

  /** On absolute paths the string test is containment by names, except that nothing is below the root. */
  lemma AbsoluteByNames(xs: seq<string>, ys: seq<string>)
    requires (forall x | x in xs :: Name(x)) && (forall y | y in ys :: Name(y))
    ensures Absolute(ys) + "/" <= Absolute(xs) <==> ys != [] && ys < xs
  {
    PrefixByNames(xs, ys);
    if ys == [] {
      if xs != [] {
        assert xs[0] in xs && Absolute(xs)[1] == xs[0][0];
      }
    } else if xs == [] {
      assert ys[0] in ys && |Absolute(ys)| > 1;
    }
  }

  // ------------------------------------------------- every normalised path by its names

  /** The forms of a normalised path: from the root, on a drive, on a share (`//server/share`), or relative. */
  datatype Place =
    | Rooted(names: seq<string>)
    | Drive(letter: char, names: seq<string>)
    | Share(names: seq<string>)
    | Relative(names: seq<string>)

  predicate Letter(c: char) {
    'a' <= c <= 'z' || 'A' <= c <= 'Z'
  }

  /** A relative path has a first name, and that does not look like a drive. */
  predicate ValidPlace(p: Place) {
    && (forall name | name in p.names :: Name(name))
    && (p.Drive? ==> 'a' <= p.letter <= 'z')
    && (p.Relative? ==> p.names != [] && !(|p.names[0]| >= 2 && Letter(p.names[0][0]) && p.names[0][1] == ':'))
  }

  function Identity(p: Place): string
    requires ValidPlace(p)
  {
    match p
    case Rooted(names) => Absolute(names)
    case Drive(letter, names) => [letter, ':'] + Absolute(names)
    case Share(names) => "/" + Absolute(names)
    case Relative(names) => names[0] + Joined(names[1..])
  }

  /** The names of places can be compared: both are counted from the same point. */
  predicate SameRoot(p: Place, q: Place) {
    match (p, q)
    case (Rooted(_), Rooted(_)) => true
    case (Drive(c, _), Drive(d, _)) => c == d
    case (Share(_), Share(_)) => true
    case (Relative(_), Relative(_)) => true
    case _ => false
  }

  lemma AbsoluteStart(names: seq<string>)
    requires forall name | name in names :: Name(name)
    ensures Absolute(names)[0] == '/' && (names == [] <==> |Absolute(names)| == 1)
    ensures names != [] ==> Name(names[0]) && |Absolute(names)| > 1 && Absolute(names)[1] == names[0][0] != '/'
  {
    if names != [] {
      assert names[0] in names;
    }
  }

  lemma RelativeStart(p: Place)
    requires ValidPlace(p) && p.Relative?
    ensures var text, first := Identity(p), p.names[0];
            && Name(first) && |text| >= 1 && text[0] == first[0] != '/'
            && (|text| >= 2 ==> text[1] == if |first| >= 2 then first[1] else '/')
  {
    assert p.names[0] in p.names;
    if |p.names| > 1 {
      assert p.names[1] in p.names;
    }
  }

  /** Places that are not counted from the same point: only the root has others below it, and these are
      the shares. */
  lemma BelowAcrossRoots(p: Place, q: Place)
    requires ValidPlace(p) && ValidPlace(q) && !SameRoot(p, q)
    ensures Identity(q) + "/" <= Identity(p) <==> q == Rooted([]) && p.Share?
  {
    var a, b := Identity(q) + "/", Identity(p);
    if !p.Relative? { AbsoluteStart(p.names); } else { RelativeStart(p); }
    if !q.Relative? { AbsoluteStart(q.names); } else { RelativeStart(q); }
    assert a <= b ==> a[0] == b[0] && a[1] == b[1];
    if q == Rooted([]) && p.Share? {
      assert a == "//" && b[..2] == "//";
    }
  }

  lemma BelowAfterPrefix(prefix: string, xs: seq<string>, ys: seq<string>)
    requires (forall x | x in xs :: Name(x)) && (forall y | y in ys :: Name(y))
    ensures (prefix + Absolute(ys)) + "/" <= prefix + Absolute(xs) <==> ys != [] && ys < xs
  {
    AbsoluteByNames(xs, ys);
    SamePrefix(prefix, Absolute(ys) + "/", Absolute(xs));
    assert (prefix + Absolute(ys)) + "/" == prefix + (Absolute(ys) + "/");
  }

  lemma BelowRelative(p: Place, q: Place)
    requires ValidPlace(p) && ValidPlace(q) && p.Relative? && q.Relative?
    ensures Identity(q) + "/" <= Identity(p) <==> q.names < p.names
  {
    PrefixByNames(p.names, q.names);
    SamePrefix("/", Identity(q) + "/", Identity(p));
    assert "/" + Identity(p) == Joined(p.names);
    assert "/" + (Identity(q) + "/") == Joined(q.names) + "/";
  }

  lemma BelowWithinRoot(p: Place, q: Place)
    requires ValidPlace(p) && ValidPlace(q) && SameRoot(p, q)
    ensures Identity(q) + "/" <= Identity(p) <==> q.names != [] && q.names < p.names
  {
    match p
    case Rooted(xs) => AbsoluteByNames(xs, q.names);
    case Drive(c, xs) => BelowAfterPrefix([c, ':'], xs, q.names);
    case Share(xs) => BelowAfterPrefix("/", xs, q.names);
    case Relative(_) => BelowRelative(p, q);
  }

  /** For all normalised paths: the string test is containment by names from the same point, except that
      nothing is below a root (`/`, `c:/` or `//`), but every share is below `/`. */
  lemma BelowByNames(p: Place, q: Place)
    requires ValidPlace(p) && ValidPlace(q)
    ensures IsBelow(Identity(p), Identity(q))
       <==> (SameRoot(p, q) && q.names != [] && q.names < p.names) || (q == Rooted([]) && p.Share?)
  {
    if SameRoot(p, q) {
      BelowWithinRoot(p, q);
    } else {
      BelowAcrossRoots(p, q);
    }
  }

  /** No two slashes in a row from position `from` on. */
  predicate SingleSlashes(text: string, from: nat) {
    forall i | from <= i < |text| - 1 :: !(text[i] == '/' && text[i + 1] == '/')
  }

  lemma {:induction false} JoinedSingle(names: seq<string>)
    requires forall name | name in names :: Name(name)
    ensures SingleSlashes(Joined(names), 0)
  {
    if names != [] {
      var first, rest := names[0], Joined(names[1..]);
      assert first in names && forall name | name in names[1..] :: name in names;
      JoinedSingle(names[1..]);
      forall i | 0 <= i < |Joined(names)| - 1 ensures !(Joined(names)[i] == '/' && Joined(names)[i + 1] == '/') {
        if i > |first| {
          assert Joined(names)[i] == rest[i - 1 - |first|] && Joined(names)[i + 1] == rest[i - |first|];
        } else if i > 0 {
          assert Joined(names)[i] == first[i - 1];
        } else {
          assert Joined(names)[1] == first[0];
        }
      }
    }
  }

  lemma AbsoluteSingle(names: seq<string>)
    requires forall name | name in names :: Name(name)
    ensures SingleSlashes(Absolute(names), 0)
  {
    JoinedSingle(names);
  }

  lemma AfterPrefixNormal(prefix: string, text: string)
    requires SingleSlashes(text, 0) && |prefix| <= 2 && (|prefix| == 2 ==> prefix[1] != '/')
    ensures Normal(prefix + text)
  {
    var all := prefix + text;
    forall i | 0 < i < |all| - 1 ensures !(all[i] == '/' && all[i + 1] == '/') {
      if i >= |prefix| {
        assert all[i] == text[i - |prefix|] && all[i + 1] == text[i + 1 - |prefix|];
      }
    }
  }

  lemma RelativeNormal(p: Place)
    requires ValidPlace(p) && p.Relative?
    ensures Normal(Identity(p))
  {
    JoinedSingle(p.names);
    var text, joined := Identity(p), Joined(p.names);
    assert "/" + text == joined;
    forall i | 0 < i < |text| - 1 ensures !(text[i] == '/' && text[i + 1] == '/') {
      assert text[i] == joined[i + 1] && text[i + 1] == joined[i + 2];
    }
  }

  /** What is said of normal texts holds of every place. */
  lemma IdentityIsNormal(p: Place)
    requires ValidPlace(p)
    ensures Normal(Identity(p))
  {
    match p
    case Rooted(names) =>
      AbsoluteSingle(names);
      AfterPrefixNormal("", Absolute(names));
      assert "" + Absolute(names) == Absolute(names);
    case Drive(c, names) =>
      AbsoluteSingle(names);
      AfterPrefixNormal([c, ':'], Absolute(names));
    case Share(names) =>
      AbsoluteSingle(names);
      AfterPrefixNormal("/", Absolute(names));
    case Relative(names) => RelativeNormal(p);
  }

  /** By the text alone: an identity that ends in a slash has nothing below it, but `/` has the shares. */
  lemma BelowSlashIff(path: string, root: string)
    requires Normal(path) && root != "" && root[|root| - 1] == '/'
    ensures IsBelow(path, root) <==> root == "/" && "//" <= path
  {
    if IsBelow(path, root) {
      var i := |root| - 1;
      assert path[i] == (root + "/")[i] && path[i + 1] == (root + "/")[i + 1];
      assert root == [root[0]];
    }
  }

  // ------------------------------------------------- the scope of an input

  predicate Below(p: Project, ancestor: string) {
    Known(p) && IsBelow(p.workspace.value, ancestor)
  }

  /** `isAncestorOf`. */
  predicate Above(p: Project, path: string) {
    Known(p) && IsBelow(path, p.workspace.value)
  }

  function At(workspace: Option<string>): Project -> bool {
    (p: Project) => p.workspace == workspace
  }

  function AboveOf(path: string): Project -> bool {
    (p: Project) => Above(p, path)
  }

  function BelowOf(path: string): Project -> bool {
    (p: Project) => Below(p, path)
  }

  function SubOf(ids: set<string>, path: string): Project -> bool {
    (p: Project) => p.id !in ids && Below(p, path)
  }

  function Depth(p: Project): nat {
    DepthOf(p.workspace)
  }

  function DeeperFirst(): (Project, Project) -> bool {
    (p: Project, q: Project) => Depth(p) >= Depth(q)
  }

  function Ids(projects: seq<Project>): set<string> {
    set p | p in projects :: p.id
  }

  datatype Mains = Mains(projects: seq<Project>, workspace: Option<string>, upward: bool)

  /** The projects at the workspace of the first of the deepest ancestors. */
  function Upward(projects: seq<Project>, path: string, le: (Project, Project) -> bool): Mains {
    var ancestors := StableSort(Filter(projects, AboveOf(path)), DeeperFirst());
    if ancestors == [] then Mains([], None, false)
    else
      var closest := ancestors[0].workspace;
      Mains(StableSort(Filter(ancestors, At(closest)), le), closest, true)
  }

  /** The first two stages; `ref` is what the reference resolver finds for an input that is no path. */
  function FindMains(projects: seq<Project>, pathForm: bool, ref: Option<Project>, path: string,
                     le: (Project, Project) -> bool): Mains
  {
    var exact := Filter(projects, At(Some(path)));
    if !pathForm && ref.Some? then Mains([ref.value], ref.value.workspace, false)
    else if pathForm && exact != [] then Mains(StableSort(exact, le), Some(path), false)
    else Upward(projects, path, le)
  }

  /** The scope, or nothing where the source throws. */
  function Resolve(projects: seq<Project>, pathForm: bool, ref: Option<Project>, path: string,
                   le: (Project, Project) -> bool): Option<Scope>
  {
    var mains := FindMains(projects, pathForm, ref, path, le);
    if mains.projects != [] && mains.workspace.Some? && mains.workspace.value != "" then
      Some(Scope(mains.projects, Filter(projects, SubOf(Ids(mains.projects), mains.workspace.value)), mains.upward))
    else
      var descendants := Filter(projects, BelowOf(path));
      if descendants == [] then None else Some(Scope([], descendants, false))
  }

  /** `resolveProjectScope`, with its stages assigning `mains`, the main workspace and the note. */
  method ResolveProjectScope(projects: seq<Project>, pathForm: bool, ref: Option<Project>, path: string,
                             le: (Project, Project) -> bool) returns (scope: Option<Scope>)
    ensures scope == Resolve(projects, pathForm, ref, path, le)
  {
    var mains: seq<Project> := [];
    var mainWorkspace: Option<string> := None;
    var ancestorNote := false;
    if !pathForm {
      if ref.Some? {
        mains := [ref.value];
        mainWorkspace := ref.value.workspace;
      }
    } else {
      var exact := Filter(projects, At(Some(path)));
      if |exact| > 0 {
        mains := StableSort(exact, le);
        mainWorkspace := Some(path);
        SortIsAsLong(exact, le);
      }
    }
    if |mains| == 0 {
      var ancestors := StableSort(Filter(projects, AboveOf(path)), DeeperFirst());
      if |ancestors| > 0 {
        var closest := ancestors[0].workspace;
        mains := StableSort(Filter(ancestors, At(closest)), le);
        mainWorkspace := closest;
        ancestorNote := true;
      }
    }
    if |mains| > 0 && mainWorkspace.Some? && mainWorkspace.value != "" {
      var subs := Filter(projects, SubOf(Ids(mains), mainWorkspace.value));
      return Some(Scope(mains, subs, ancestorNote));
    }
    var descendants := Filter(projects, BelowOf(path));
    scope := if |descendants| == 0 then None else Some(Scope([], descendants, false));
  }

  lemma {:induction false} SortIsAsLong<T>(xs: seq<T>, le: (T, T) -> bool)
    ensures |StableSort(xs, le)| == |xs|
  {
    if xs != [] {
      SortIsAsLong(xs[1..], le);
      InsertIsOneLonger(xs[0], StableSort(xs[1..], le), le);
    }
  }

  lemma {:induction false} InsertIsOneLonger<T>(x: T, xs: seq<T>, le: (T, T) -> bool)
    ensures |Insert(x, xs, le)| == |xs| + 1
  {
    if xs != [] && !le(x, xs[0]) {
      InsertIsOneLonger(x, xs[1..], le);
    }
  }

  // ------------------------------------------------- what the mains are

  lemma DeeperFirstIsPreorder()
    ensures TotalPreorder(DeeperFirst())
  {}

  /** A project is at the deepest ancestor of a path. */
  ghost predicate Deepest(projects: seq<Project>, path: string, p: Project) {
    p in projects && Above(p, path) && forall q | q in projects && Above(q, path) :: Depth(q) <= Depth(p)
  }

  /** Going upward finds every project at the deepest ancestor and no other, although only the first of them is
      looked at: they all have the workspace that the scope goes on with. */
  lemma UpwardFindsDeepest(projects: seq<Project>, path: string, le: (Project, Project) -> bool)
    requires Normal(path) && TotalPreorder(le)
    ensures var mains := Upward(projects, path, le);
            && (forall p :: p in mains.projects <==> Deepest(projects, path, p))
            && (mains.projects == [] <==> forall p | p in projects :: !Above(p, path))
            && (forall p | p in mains.projects :: p.workspace == mains.workspace)
            && Sorted(mains.projects, le)
  {
    var above := Filter(projects, AboveOf(path));
    var ancestors := StableSort(above, DeeperFirst());
    DeeperFirstIsPreorder();
    StableSortSorts(above, DeeperFirst());
    StableSortMembers(above, DeeperFirst());
    if ancestors != [] {
      var first := ancestors[0];
      assert first in ancestors && first in above;
      var closest := Filter(ancestors, At(first.workspace));
      StableSortSorts(closest, le);
      StableSortMembers(closest, le);
      assert first in closest;
      forall q | q in above ensures Depth(q) <= Depth(first) {
        FirstIsDeepest(ancestors, q);
      }
      forall p ensures p in closest <==> Deepest(projects, path, p) {
        if p in projects && Above(p, path) {
          AncestorsAtOneDepth(path, p.workspace.value, first.workspace.value);
        }
      }
    } else {
      forall p | p in projects ensures !Above(p, path) {
        assert p !in above;
      }
    }
  }

  lemma FirstIsDeepest(ancestors: seq<Project>, q: Project)
    requires q in ancestors && Sorted(ancestors, DeeperFirst())
    ensures Depth(q) <= Depth(ancestors[0])
  {
    var k :| 0 <= k < |ancestors| && ancestors[k] == q;
    assert k > 0 ==> DeeperFirst()(ancestors[0], ancestors[k]);
  }

  /** A path stands for the projects at exactly its workspace, or, when there is none, for those at its deepest
      ancestor, and then, and only then, the scope is marked as resolved upward. */
  lemma MainsOfPath(projects: seq<Project>, path: string, le: (Project, Project) -> bool)
    requires Normal(path) && path != "" && TotalPreorder(le)
    ensures var mains := FindMains(projects, true, None, path, le);
            var exact := exists p :: p in projects && p.workspace == Some(path);
            && (mains.upward <==> !exact && exists p :: p in projects && Above(p, path))
            && (forall p :: p in mains.projects <==>
                  if exact then p in projects && p.workspace == Some(path) else Deepest(projects, path, p))
  {
    var exact := Filter(projects, At(Some(path)));
    if exact != [] {
      assert exact[0] in exact;
      StableSortMembers(exact, le);
    } else {
      forall p | p in projects ensures p.workspace != Some(path) {
        assert p !in exact;
      }
      UpwardFindsDeepest(projects, path, le);
      var mains := Upward(projects, path, le);
      if mains.projects != [] {
        assert mains.projects[0] in mains.projects;
      }
    }
  }

  /** Sub-projects lie strictly below the workspace that all mains share, so no main is among them: with ids
      that are not shared the test against the ids of the mains leaves nothing out. */
  lemma SubProjectsApart(projects: seq<Project>, path: string, le: (Project, Project) -> bool)
    requires Normal(path) && path != "" && TotalPreorder(le)
    requires forall p, q | p in projects && q in projects && p.id == q.id :: p == q
    requires FindMains(projects, true, None, path, le).projects != []
    ensures var mains := FindMains(projects, true, None, path, le);
            && Resolve(projects, true, None, path, le).Some?
            && mains.workspace.Some?
            && (var scope := Resolve(projects, true, None, path, le).value;
                && scope.mains == mains.projects
                && scope.subs == Filter(projects, BelowOf(mains.workspace.value))
                && forall p :: !(p in scope.mains && p in scope.subs))
  {
    var mains := FindMains(projects, true, None, path, le);
    MainsShareWorkspace(projects, path, le);
    assert mains.projects[0] in mains.projects;
    var workspace := mains.workspace.value;
    forall p | p in projects ensures SubOf(Ids(mains.projects), workspace)(p) == BelowOf(workspace)(p) {
      if p.id in Ids(mains.projects) {
        var q :| q in mains.projects && q.id == p.id;
        assert q in projects;
      }
    }
    FilterAgree(projects, SubOf(Ids(mains.projects), workspace), BelowOf(workspace));
  }

  lemma MainsShareWorkspace(projects: seq<Project>, path: string, le: (Project, Project) -> bool)
    requires Normal(path) && path != "" && TotalPreorder(le)
    ensures var mains := FindMains(projects, true, None, path, le);
            forall p | p in mains.projects :: p in projects && Known(p) && p.workspace == mains.workspace
  {
    var exact := Filter(projects, At(Some(path)));
    if exact != [] {
      StableSortMembers(exact, le);
    } else {
      UpwardFindsDeepest(projects, path, le);
    }
  }

  lemma {:induction false} FilterTwice(xs: seq<Project>, p: Project -> bool, q: Project -> bool)
    requires forall x | q(x) :: p(x)
    ensures Filter(Filter(xs, p), q) == Filter(xs, q)
  {
    if xs != [] {
      FilterTwice(xs[1..], p, q);
      FilterAppend(if p(xs[0]) then [xs[0]] else [], Filter(xs[1..], p), q);
    }
  }

  /** Going upward loses none of the projects at the workspace that it ends at, and repeats none. */
  lemma UpwardTakesAll(projects: seq<Project>, path: string, le: (Project, Project) -> bool)
    requires Normal(path) && TotalPreorder(le) && Upward(projects, path, le).projects != []
    ensures var mains := Upward(projects, path, le);
            multiset(mains.projects) == multiset(Filter(projects, At(mains.workspace)))
  {
    var above := Filter(projects, AboveOf(path));
    var ancestors := StableSort(above, DeeperFirst());
    var mains := Upward(projects, path, le);
    DeeperFirstIsPreorder();
    StableSortSorts(above, DeeperFirst());
    StableSortMembers(above, DeeperFirst());
    StableSortSorts(Filter(ancestors, At(mains.workspace)), le);
    assert ancestors[0] in ancestors;
    FilterPermutation(ancestors, above, At(mains.workspace));
    FilterTwice(projects, AboveOf(path), At(mains.workspace));
  }

  /** The mains do not depend on the order in which the store lists projects. */
  lemma MainsForgetOrder(projects: seq<Project>, projects': seq<Project>, path: string, le: (Project, Project) -> bool)
    requires Normal(path) && path != "" && TotalPreorder(le) && Antisymmetric(projects, le)
    requires multiset(projects) == multiset(projects')
    ensures FindMains(projects, true, None, path, le) == FindMains(projects', true, None, path, le)
  {
    var exact, exact' := Filter(projects, At(Some(path))), Filter(projects', At(Some(path)));
    FilterPermutation(projects, projects', At(Some(path)));
    if exact != [] {
      SortForgetsOrder(exact, exact', le);
    } else {
      UpwardForgetsOrder(projects, projects', path, le);
    }
  }

  lemma UpwardForgetsOrder(projects: seq<Project>, projects': seq<Project>, path: string,
                           le: (Project, Project) -> bool)
    requires Normal(path) && TotalPreorder(le) && Antisymmetric(projects, le)
    requires multiset(projects) == multiset(projects')
    ensures Upward(projects, path, le) == Upward(projects', path, le)
  {
    var mains, mains' := Upward(projects, path, le), Upward(projects', path, le);
    SameDeepest(projects, projects', path, le);
    if mains.projects == [] {
      NoneUpward(projects, path, le);
      NoneUpward(projects', path, le);
    } else {
      UpwardTakesAll(projects, path, le);
      UpwardTakesAll(projects', path, le);
      FilterPermutation(projects, projects', At(mains.workspace));
      SortedIsUnique(mains.projects, mains'.projects, le);
    }
  }

  lemma NoneUpward(projects: seq<Project>, path: string, le: (Project, Project) -> bool)
    requires Normal(path) && TotalPreorder(le) && Upward(projects, path, le).projects == []
    ensures Upward(projects, path, le) == Mains([], None, false)
  {
    UpwardFindsDeepest(projects, path, le);
    FilterNone(projects, AboveOf(path));
  }

  lemma SameDeepest(projects: seq<Project>, projects': seq<Project>, path: string, le: (Project, Project) -> bool)
    requires Normal(path) && TotalPreorder(le) && multiset(projects) == multiset(projects')
    ensures var mains, mains' := Upward(projects, path, le), Upward(projects', path, le);
            && (mains.projects == [] <==> mains'.projects == [])
            && (mains.projects != [] ==>
                  && mains.workspace == mains'.workspace && mains.upward == mains'.upward
                  && Sorted(mains.projects, le) && Sorted(mains'.projects, le)
                  && forall p | p in mains.projects :: p in projects)
  {
    SameMembers(projects, projects');
    UpwardFindsDeepest(projects, path, le);
    UpwardFindsDeepest(projects', path, le);
    var mains, mains' := Upward(projects, path, le), Upward(projects', path, le);
    if mains.projects != [] {
      var first := mains.projects[0];
      assert first in mains.projects && Deepest(projects, path, first);
      assert Deepest(projects', path, first);
      assert first in mains'.projects;
    }
  }

  /** A root as input is resolved exactly when a project is at it, or above it, or it is `/` and a project is on a
      share; projects below it in the directory tree do not count. */
  lemma RootInputIff(projects: seq<Project>, root: string, le: (Project, Project) -> bool)
    requires Normal(root) && root != "" && root[|root| - 1] == '/' && TotalPreorder(le)
    requires forall p | p in projects && Known(p) :: Normal(p.workspace.value)
    ensures Resolve(projects, true, None, root, le).Some?
       <==> exists p :: p in projects && (p.workspace == Some(root) || Above(p, root) || (root == "/" && OnShare(p)))
  {
    var mains := FindMains(projects, true, None, root, le);
    var descendants := Filter(projects, BelowOf(root));
    MainsOfPath(projects, root, le);
    MainsShareWorkspace(projects, root, le);
    SomeMainIff(projects, root, le);
    if mains.projects != [] {
      assert mains.projects[0] in mains.projects;
    } else {
      forall p | p in projects ensures p in descendants <==> root == "/" && OnShare(p) {
        if Known(p) {
          BelowSlashIff(p.workspace.value, root);
        }
      }
      assert descendants != [] ==> descendants[0] in descendants;
    }
  }

  predicate OnShare(p: Project) {
    Known(p) && "//" <= p.workspace.value
  }

  lemma SomeMainIff(projects: seq<Project>, path: string, le: (Project, Project) -> bool)
    requires Normal(path) && path != "" && TotalPreorder(le)
    ensures FindMains(projects, true, None, path, le).projects != []
       <==> exists p :: p in projects && (p.workspace == Some(path) || Above(p, path))
  {
    var exact := Filter(projects, At(Some(path)));
    if exact != [] {
      StableSortMembers(exact, le);
      assert exact[0] in exact && exact[0].workspace == Some(path);
    } else {
      forall p | p in projects ensures p.workspace != Some(path) {
        assert p !in exact;
      }
      UpwardFindsDeepest(projects, path, le);
    }
  }

  /** With `/` as input a single project is found when it is at `/` or on a share, and in no other directory. */
  lemma RootFindsOneIff(p: Project, le: (Project, Project) -> bool)
    requires Known(p) && Normal(p.workspace.value) && TotalPreorder(le)
    ensures Resolve([p], true, None, "/", le).Some? <==> p.workspace == Some("/") || "//" <= p.workspace.value
  {
    RootInputIff([p], "/", le);
    assert p in [p];
  }

  /** A reference that is found is the main of its scope exactly when its project has a workspace. */
  lemma ReferenceIsMainIff(projects: seq<Project>, ref: Project, path: string, le: (Project, Project) -> bool)
    ensures var scope := Resolve(projects, false, Some(ref), path, le);
            (scope.Some? && scope.value.mains == [ref]) <==> Known(ref)
  {}

  /** A project without a workspace is found by its reference, and then reported as missing. */
  lemma LostReferenceExample()
    ensures var p := Project("1", "tool", None);
            Resolve([p], false, Some(p), "/home/me/tool", (a: Project, b: Project) => true) == None
  {
    var p := Project("1", "tool", None);
    assert !BelowOf("/home/me/tool")(p);
    assert Filter([p], BelowOf("/home/me/tool")) == [];
  }
}
