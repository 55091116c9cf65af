/** Grouping observations by the rule keys that they share. */
module LinkGroups {
  // `Connected` is the reference: a chain of observations in which neighbours share a rule key. The union-find
  // loop computes exactly its classes.

  import opened Sequences
  import opened Sorting
  import opened LinkRules
  import opened Options
  import UF = UnionFind

  predicate HasKey(c: Classified, state: LinkageState, key: RuleKey) {
    exists r | r in RulesOf(c, state) :: r.key == key
  }

  ghost predicate Share(a: Classified, b: Classified, state: LinkageState) {
    exists key :: HasKey(a, state, key) && HasKey(b, state, key)
  }

  // ------------------------------------------------- connectivity

  ghost predicate IsPath(scope: seq<Classified>, state: LinkageState, path: seq<Classified>, a: Classified,
                         b: Classified)
  {
    && path != [] && path[0] == a && path[|path| - 1] == b
    && (forall c | c in path :: c in scope)
    && forall i | 0 <= i < |path| - 1 :: Share(path[i], path[i + 1], state)
  }

  ghost predicate Connected(scope: seq<Classified>, state: LinkageState, a: Classified, b: Classified) {
    exists path :: IsPath(scope, state, path, a, b)
  }

  lemma ConnectedReflexive(scope: seq<Classified>, state: LinkageState, a: Classified)
    requires a in scope
    ensures Connected(scope, state, a, a)
  {
    assert IsPath(scope, state, [a], a, a);
  }

  lemma ConnectedStep(scope: seq<Classified>, state: LinkageState, a: Classified, b: Classified)
    requires a in scope && b in scope && Share(a, b, state)
    ensures Connected(scope, state, a, b)
  {
    assert IsPath(scope, state, [a, b], a, b);
  }

  function Reverse<T>(s: seq<T>): (r: seq<T>)
    ensures |r| == |s| && forall i | 0 <= i < |s| :: r[i] == s[|s| - 1 - i]
  {
    seq(|s|, i requires 0 <= i < |s| => s[|s| - 1 - i])
  }

  lemma ConnectedSymmetric(scope: seq<Classified>, state: LinkageState, a: Classified, b: Classified)
    requires Connected(scope, state, a, b)
    ensures Connected(scope, state, b, a)
  {
    var path :| IsPath(scope, state, path, a, b);
    var back := Reverse(path);
    forall i | 0 <= i < |back| - 1 ensures Share(back[i], back[i + 1], state) {
      var j := |path| - 2 - i;
      assert Share(path[j], path[j + 1], state);
    }
    assert IsPath(scope, state, back, b, a);
  }

  lemma ConnectedTransitive(scope: seq<Classified>, state: LinkageState, a: Classified, b: Classified, c: Classified)
    requires Connected(scope, state, a, b) && Connected(scope, state, b, c)
    ensures Connected(scope, state, a, c)
  {
    var p :| IsPath(scope, state, p, a, b);
    var q :| IsPath(scope, state, q, b, c);
    var path := p + q[1..];
    forall i | 0 <= i < |path| - 1 ensures Share(path[i], path[i + 1], state) {
      if i < |p| - 1 {
        assert Share(p[i], p[i + 1], state);
      } else {
        assert Share(q[i - |p| + 1], q[i - |p| + 2], state);
      }
    }
    assert IsPath(scope, state, path, a, c);
  }

  /** Connectivity depends on which observations are in scope, not on their order. */
  lemma ConnectedSameScope(scope: seq<Classified>, scope': seq<Classified>, state: LinkageState, a: Classified,
                           b: Classified)
    requires forall c :: c in scope <==> c in scope'
    ensures Connected(scope, state, a, b) <==> Connected(scope', state, a, b)
  {
    if Connected(scope, state, a, b) {
      var path :| IsPath(scope, state, path, a, b);
      assert IsPath(scope', state, path, a, b);
    }
    if Connected(scope', state, a, b) {
      var path :| IsPath(scope', state, path, a, b);
      assert IsPath(scope, state, path, a, b);
    }
  }

  // ------------------------------------------------- the scope, keys and unions

  predicate InScope(c: Classified, state: LinkageState) {
    if state == Committed then c.committed != [] else c.committed == [] && c.candidate != []
  }

  function Scope(classified: seq<Classified>, state: LinkageState): seq<Classified> {
    Filter(classified, c => InScope(c, state))
  }

  /** `keyToIndexes`: for every key, the positions of the observations that have it, with the keys
      in the order in which they were first seen. */
  datatype KeyTable = KeyTable(order: seq<RuleKey>, indexes: map<RuleKey, seq<nat>>)

  ghost predicate Tabulates(table: KeyTable, scoped: seq<Classified>, state: LinkageState, n: nat)
    requires n <= |scoped|
  {
    && (forall key | key in table.order :: key in table.indexes)
    && (forall key | key in table.indexes ::
          && key in table.order && table.indexes[key] != []
          && forall i | i in table.indexes[key] :: i < |scoped| && HasKey(scoped[i], state, key))
    && (forall i, key | 0 <= i < n && HasKey(scoped[i], state, key) ::
          key in table.indexes && i in table.indexes[key])
  }

  function AddIndex(table: KeyTable, key: RuleKey, i: nat): KeyTable {
    if key in table.indexes then table.(indexes := table.indexes[key := table.indexes[key] + [i]])
    else KeyTable(table.order + [key], table.indexes[key := [i]])
  }

  lemma AddIndexTabulates(table: KeyTable, scoped: seq<Classified>, state: LinkageState, n: nat, key: RuleKey, i: nat)
    requires n <= i < |scoped| && Tabulates(table, scoped, state, n) && HasKey(scoped[i], state, key)
    ensures Tabulates(AddIndex(table, key, i), scoped, state, n)
    ensures key in AddIndex(table, key, i).indexes && i in AddIndex(table, key, i).indexes[key]
    ensures forall k | k in table.indexes ::
      && k in AddIndex(table, key, i).indexes
      && forall j | j in table.indexes[k] :: j in AddIndex(table, key, i).indexes[k]
  {
  }

  /** The first `j` rules of observation `i` are in the table, and all observations before it. */
  ghost predicate Tabulating(table: KeyTable, scoped: seq<Classified>, state: LinkageState, i: nat, j: nat)
    requires i < |scoped| && j <= |RulesOf(scoped[i], state)|
  {
    && Tabulates(table, scoped, state, i)
    && forall m | 0 <= m < j :: Indexed(table, RulesOf(scoped[i], state)[m].key, i)
  }

  predicate Indexed(table: KeyTable, key: RuleKey, i: nat) {
    key in table.indexes && i in table.indexes[key]
  }

  lemma TabulatingNext(table: KeyTable, scoped: seq<Classified>, state: LinkageState, i: nat, j: nat)
    requires i < |scoped| && j < |RulesOf(scoped[i], state)| && Tabulating(table, scoped, state, i, j)
    ensures Tabulating(AddIndex(table, RulesOf(scoped[i], state)[j].key, i), scoped, state, i, j + 1)
  {
    AddIndexTabulates(table, scoped, state, i, RulesOf(scoped[i], state)[j].key, i);
  }

  method IndexKeys(scoped: seq<Classified>, state: LinkageState) returns (table: KeyTable)
    ensures Tabulates(table, scoped, state, |scoped|)
  {
    table := KeyTable([], map[]);
    for i := 0 to |scoped|
      invariant Tabulates(table, scoped, state, i)
    {
      table := IndexRules(table, scoped, state, i);
    }
  }

  /** The keys of one observation. */
  method IndexRules(before: KeyTable, scoped: seq<Classified>, state: LinkageState, i: nat) returns (table: KeyTable)
    requires i < |scoped| && Tabulates(before, scoped, state, i)
    ensures Tabulates(table, scoped, state, i + 1)
  {
    table := before;
    var rules := RulesOf(scoped[i], state);
    for j := 0 to |rules|
      invariant Tabulating(table, scoped, state, i, j)
    {
      TabulatingNext(table, scoped, state, i, j);
      var key := rules[j].key;
      if key in table.indexes {
        table := table.(indexes := table.indexes[key := table.indexes[key] + [i]]);
      } else {
        table := KeyTable(table.order + [key], table.indexes[key := [i]]);
      }
    }
  }

  /** Elements with one representative are connected. */
  ghost predicate Sound(rep: seq<nat>, scoped: seq<Classified>, state: LinkageState)
    requires |rep| == |scoped|
  {
    forall i, j | 0 <= i < |rep| && 0 <= j < |rep| && rep[i] == rep[j] ::
      Connected(scoped, state, scoped[i], scoped[j])
  }

  /** The positions in `indexes` are in one class. */
  predicate Joined(rep: seq<nat>, indexes: seq<nat>) {
    forall i | 0 <= i < |indexes| :: indexes[i] < |rep| && indexes[0] < |rep| && rep[indexes[i]] == rep[indexes[0]]
  }

  lemma MergeIsSound(rep: seq<nat>, scoped: seq<Classified>, state: LinkageState, l: nat, r: nat)
    requires |rep| == |scoped| && Sound(rep, scoped, state) && l < |rep| && r < |rep|
    requires Share(scoped[l], scoped[r], state)
    ensures Sound(UF.Merged(rep, l, r), scoped, state)
  {
    var rep' := UF.Merged(rep, l, r);
    ConnectedStep(scoped, state, scoped[l], scoped[r]);
    ConnectedSymmetric(scoped, state, scoped[l], scoped[r]);
    forall i, j | 0 <= i < |rep| && 0 <= j < |rep| && rep'[i] == rep'[j]
      ensures Connected(scoped, state, scoped[i], scoped[j])
    {
      if rep[i] == rep[l] && rep[j] == rep[r] {
        ConnectedTransitive(scoped, state, scoped[i], scoped[l], scoped[r]);
        ConnectedTransitive(scoped, state, scoped[i], scoped[r], scoped[j]);
      } else if rep[i] == rep[r] && rep[j] == rep[l] {
        ConnectedTransitive(scoped, state, scoped[i], scoped[r], scoped[l]);
        ConnectedTransitive(scoped, state, scoped[i], scoped[l], scoped[j]);
      }
    }
  }

  /** Once the positions of every key are in one class, a path stays in one class. */
  lemma {:induction false} PathStaysInClass(rep: seq<nat>, scoped: seq<Classified>, state: LinkageState,
                                            table: KeyTable,
                                            path: seq<Classified>, i: nat, j: nat)
    requires |rep| == |scoped| && i < |rep| && j < |rep|
    requires Tabulates(table, scoped, state, |scoped|)
    requires forall key | key in table.indexes :: Joined(rep, table.indexes[key])
    requires IsPath(scoped, state, path, scoped[i], scoped[j]) && RulesOf(scoped[i], state) != []
    ensures rep[i] == rep[j]
  {
    if |path| == 1 {
      assert HasKey(scoped[i], state, RulesOf(scoped[i], state)[0].key);
      SameKeySameClass(rep, scoped, state, table, i, j, RulesOf(scoped[i], state)[0].key);
    } else {
      assert path[1] in path && Share(path[0], path[1], state);
      var key :| HasKey(path[0], state, key) && HasKey(path[1], state, key);
      var k :| 0 <= k < |scoped| && scoped[k] == path[1];
      SameKeySameClass(rep, scoped, state, table, i, k, key);
      forall m | 0 <= m < |path[1..]| - 1 ensures Share(path[1..][m], path[1..][m + 1], state) {
        assert Share(path[m + 1], path[m + 2], state);
      }
      assert IsPath(scoped, state, path[1..], scoped[k], scoped[j]);
      PathStaysInClass(rep, scoped, state, table, path[1..], k, j);
    }
  }

  lemma SameKeySameClass(rep: seq<nat>, scoped: seq<Classified>, state: LinkageState, table: KeyTable, i: nat, j: nat,
                         key: RuleKey)
    requires |rep| == |scoped| && i < |rep| && j < |rep|
    requires Tabulates(table, scoped, state, |scoped|)
    requires forall k | k in table.indexes :: Joined(rep, table.indexes[k])
    requires HasKey(scoped[i], state, key) && HasKey(scoped[j], state, key)
    ensures rep[i] == rep[j]
  {
    var indexes := table.indexes[key];
    var a :| 0 <= a < |indexes| && indexes[a] == i;
    var b :| 0 <= b < |indexes| && indexes[b] == j;
  }

  /** The unions: one class per connected component, no more and no less. */
  method UnionSharedKeys(scoped: seq<Classified>, state: LinkageState) returns (forest: UF.Forest)
    requires forall c | c in scoped :: InScope(c, state)
    ensures fresh(forest) && fresh(forest.parent) && forest.Valid() && forest.parent.Length == |scoped|
    ensures forall i, j | 0 <= i < |scoped| && 0 <= j < |scoped| ::
      forest.rep[i] == forest.rep[j] <==> Connected(scoped, state, scoped[i], scoped[j])
  {
    var table := IndexKeys(scoped, state);
    forest := new UF.Forest(|scoped|);
    forall i | 0 <= i < |scoped| ensures Connected(scoped, state, scoped[i], scoped[i]) {
      ConnectedReflexive(scoped, state, scoped[i]);
    }
    for k := 0 to |table.order|
      invariant fresh(forest.parent) && forest.Valid() && forest.parent.Length == |scoped|
      invariant Sound(forest.rep, scoped, state)
      invariant forall m | 0 <= m < k :: Joined(forest.rep, table.indexes[table.order[m]])
    {
      UnionIndexes(forest, scoped, state, table.order[k], table.indexes[table.order[k]]);
    }
    ClassesAreConnected(forest.rep, scoped, state, table);
  }

  /** When every key's positions are joined, and nothing else is, the classes are the components. */
  lemma ClassesAreConnected(rep: seq<nat>, scoped: seq<Classified>, state: LinkageState, table: KeyTable)
    requires (forall c | c in scoped :: InScope(c, state)) && |rep| == |scoped| && Sound(rep, scoped, state)
    requires Tabulates(table, scoped, state, |scoped|)
    requires forall key | key in table.order :: Joined(rep, table.indexes[key])
    ensures forall i, j | 0 <= i < |scoped| && 0 <= j < |scoped| ::
      rep[i] == rep[j] <==> Connected(scoped, state, scoped[i], scoped[j])
  {
    forall i, j | 0 <= i < |scoped| && 0 <= j < |scoped| && Connected(scoped, state, scoped[i], scoped[j])
      ensures rep[i] == rep[j]
    {
      var path :| IsPath(scoped, state, path, scoped[i], scoped[j]);
      assert scoped[i] in scoped;
      PathStaysInClass(rep, scoped, state, table, path, i, j);
    }
  }

  /** One key: every position is united with the first. */
  method UnionIndexes(forest: UF.Forest, scoped: seq<Classified>, state: LinkageState, key: RuleKey, indexes: seq<nat>)
    requires forest.Valid() && forest.parent.Length == |scoped| && Sound(forest.rep, scoped, state)
    requires indexes != [] && forall i | i in indexes :: i < |scoped| && HasKey(scoped[i], state, key)
    modifies forest, forest.parent
    ensures forest.Valid() && forest.parent.Length == |scoped| && Sound(forest.rep, scoped, state)
    ensures Joined(forest.rep, indexes)
    ensures forall others: seq<nat> :: old(Joined(forest.rep, others)) ==> Joined(forest.rep, others)
  {
    var n := 1;
    assert indexes[0] in indexes;
    while n < |indexes|
      invariant 1 <= n <= |indexes|
      invariant forest.Valid() && Sound(forest.rep, scoped, state)
      invariant Joined(forest.rep, indexes[..n])
      invariant forall others: seq<nat> :: old(Joined(forest.rep, others)) ==> Joined(forest.rep, others)
    {
      assert indexes[0] in indexes && indexes[n] in indexes;
      UnionPair(forest, scoped, state, key, indexes[0], indexes[n]);
      assert indexes[..n + 1] == indexes[..n] + [indexes[n]];
      n := n + 1;
    }
    assert indexes[..n] == indexes;
  }

  method UnionPair(forest: UF.Forest, scoped: seq<Classified>, state: LinkageState, key: RuleKey, l: nat, r: nat)
    requires forest.Valid() && forest.parent.Length == |scoped| && Sound(forest.rep, scoped, state)
    requires l < |scoped| && r < |scoped| && HasKey(scoped[l], state, key) && HasKey(scoped[r], state, key)
    modifies forest, forest.parent
    ensures forest.Valid() && forest.parent.Length == |scoped| && Sound(forest.rep, scoped, state)
    ensures forest.rep[l] == forest.rep[r]
    ensures forall others: seq<nat> :: old(Joined(forest.rep, others)) ==> Joined(forest.rep, others)
  {
    assert Share(scoped[l], scoped[r], state);
    MergeIsSound(forest.rep, scoped, state, l, r);
    MergeKeepsJoined(forest.rep, l, r);
    forest.Union(l, r);
  }

  lemma MergeKeepsJoined(rep: seq<nat>, l: nat, r: nat)
    requires l < |rep| && r < |rep|
    ensures forall others: seq<nat> :: Joined(rep, others) ==> Joined(UF.Merged(rep, l, r), others)
  {
  }

  // ------------------------------------------------- components

  /** The component of an observation, in scope order. */
  ghost function ComponentOf(scoped: seq<Classified>, state: LinkageState, c: Classified): seq<Classified> {
    Filter(scoped, LinkedTo(scoped, state, c))
  }

  /** The components: each is a connectivity class, they cover the scope, and no two are connected. */
  ghost predicate AreComponents(components: seq<seq<Classified>>, scoped: seq<Classified>, state: LinkageState) {
    && (forall k | 0 <= k < |components| ::
          components[k] != [] && components[k] == ComponentOf(scoped, state, components[k][0]))
    && (forall c | c in scoped :: exists k :: 0 <= k < |components| && c in components[k])
    && (forall k, m | 0 <= k < m < |components| ::
          components[k] != [] && components[m] != []
          && !Connected(scoped, state, components[k][0], components[m][0]))
  }

  /** The components found so far: by root, with the roots in the order of their first member. */
  datatype RootTable = RootTable(order: seq<nat>, members: map<nat, seq<Classified>>)

  ghost function ClassPrefix(scoped: seq<Classified>, rep: seq<nat>, n: nat, root: nat): seq<Classified>
    requires n <= |scoped| == |rep|
  {
    if n == 0 then []
    else ClassPrefix(scoped, rep, n - 1, root) + (if rep[n - 1] == root then [scoped[n - 1]] else [])
  }

  ghost function LinkedTo(scoped: seq<Classified>, state: LinkageState, c: Classified): Classified -> bool {
    (d: Classified) => Connected(scoped, state, c, d)
  }

  lemma {:induction false} ClassPrefixIsFilter(scoped: seq<Classified>, state: LinkageState, rep: seq<nat>, n: nat,
                                               i: nat)
    requires n <= |scoped| == |rep| && i < |rep|
    requires forall a | 0 <= a < |rep| :: rep[a] == rep[i] <==> LinkedTo(scoped, state, scoped[i])(scoped[a])
    ensures ClassPrefix(scoped, rep, n, rep[i]) == Filter(scoped[..n], LinkedTo(scoped, state, scoped[i]))
  {
    if n > 0 {
      ClassPrefixIsFilter(scoped, state, rep, n - 1, i);
      FilterPush(scoped[..n - 1], scoped[n - 1], LinkedTo(scoped, state, scoped[i]));
      assert scoped[..n] == scoped[..n - 1] + [scoped[n - 1]];
    }
  }

  lemma {:induction false} ClassPrefixNonEmpty(scoped: seq<Classified>, rep: seq<nat>, n: nat, i: nat)
    requires n <= |scoped| == |rep| && i < n
    ensures exists j :: 0 <= j < n && rep[j] == rep[i] && ClassPrefix(scoped, rep, n, rep[i]) != []
                        && ClassPrefix(scoped, rep, n, rep[i])[0] == scoped[j]
  {
    if i < n - 1 {
      ClassPrefixNonEmpty(scoped, rep, n - 1, i);
    } else if exists k :: 0 <= k < n - 1 && rep[k] == rep[i] {
      var k :| 0 <= k < n - 1 && rep[k] == rep[i];
      ClassPrefixNonEmpty(scoped, rep, n - 1, k);
    } else {
      ClassPrefixEmpty(scoped, rep, n - 1, rep[i]);
    }
  }

  lemma {:induction false} ClassPrefixEmpty(scoped: seq<Classified>, rep: seq<nat>, n: nat, root: nat)
    requires n <= |scoped| == |rep| && forall k | 0 <= k < n :: rep[k] != root
    ensures ClassPrefix(scoped, rep, n, root) == []
  {
    if n > 0 {
      ClassPrefixEmpty(scoped, rep, n - 1, root);
    }
  }

  predicate IsRoot(rep: seq<nat>, n: nat, root: nat)
    requires n <= |rep|
  {
    exists i :: 0 <= i < n && rep[i] == root
  }

  ghost predicate Gathers(table: RootTable, scoped: seq<Classified>, rep: seq<nat>, n: nat)
    requires n <= |scoped| == |rep|
  {
    && NoDuplicates(table.order)
    && (forall root :: root in table.order <==> IsRoot(rep, n, root))
    && (forall root :: root in table.order <==> root in table.members)
    && (forall root | root in table.members :: table.members[root] == ClassPrefix(scoped, rep, n, root))
  }

  method GatherByRoot(forest: UF.Forest, scoped: seq<Classified>) returns (table: RootTable)
    requires forest.Valid() && forest.parent.Length == |scoped|
    modifies forest.parent
    ensures Gathers(table, scoped, forest.rep, |scoped|)
  {
    table := RootTable([], map[]);
    ghost var rep := forest.rep;
    for i := 0 to |scoped|
      invariant forest.Valid() && forest.rep == rep
      invariant Gathers(table, scoped, rep, i)
    {
      var root := forest.Find(i);
      GatherStep(table, scoped, rep, i);
      if root in table.members {
        table := table.(members := table.members[root := table.members[root] + [scoped[i]]]);
      } else {
        table := RootTable(table.order + [root], table.members[root := [scoped[i]]]);
      }
    }
  }

  lemma GatherStep(table: RootTable, scoped: seq<Classified>, rep: seq<nat>, i: nat)
    requires i < |scoped| == |rep| && Gathers(table, scoped, rep, i)
    ensures var root := rep[i];
            var table' := if root in table.members
                          then table.(members := table.members[root := table.members[root] + [scoped[i]]])
                          else RootTable(table.order + [root], table.members[root := [scoped[i]]]);
            Gathers(table', scoped, rep, i + 1)
  {
    var root := rep[i];
    if root !in table.members {
      ClassPrefixEmpty(scoped, rep, i, root);
      assert forall r :: r in table.order + [root] <==> r in table.order || r == root;
    }
    forall r ensures IsRoot(rep, i + 1, r) <==> r == root || IsRoot(rep, i, r) {
      assert rep[i] == root;
    }
  }

  /** The components of one scope. */
  method ScopeComponents(scoped: seq<Classified>, state: LinkageState) returns (components: seq<seq<Classified>>)
    requires forall c | c in scoped :: InScope(c, state)
    ensures AreComponents(components, scoped, state)
  {
    var forest := UnionSharedKeys(scoped, state);
    ghost var rep := forest.rep;
    var table := GatherByRoot(forest, scoped);
    components := Map(table.order, root => if root in table.members then table.members[root] else []);
    RootsAreComponents(table, scoped, state, rep, components);
  }

  lemma RootsAreComponents(table: RootTable, scoped: seq<Classified>, state: LinkageState, rep: seq<nat>,
                           components: seq<seq<Classified>>)
    requires |rep| == |scoped| && Gathers(table, scoped, rep, |scoped|)
    requires |components| == |table.order|
    requires forall k | 0 <= k < |components| :: components[k] == table.members[table.order[k]]
    requires forall a, b | 0 <= a < |rep| && 0 <= b < |rep| ::
      rep[a] == rep[b] <==> Connected(scoped, state, scoped[a], scoped[b])
    ensures AreComponents(components, scoped, state)
  {
    var n := |scoped|;
    forall k | 0 <= k < |components|
      ensures exists j :: 0 <= j < n && rep[j] == table.order[k] && components[k] != [] && components[k][0] == scoped[j]
                          && components[k] == ComponentOf(scoped, state, scoped[j])
    {
      assert table.order[k] in table.order && IsRoot(rep, n, table.order[k]);
      var i :| 0 <= i < n && rep[i] == table.order[k];
      ClassPrefixNonEmpty(scoped, rep, n, i);
      var j :| 0 <= j < n && rep[j] == rep[i] && components[k][0] == scoped[j];
      ClassPrefixIsFilter(scoped, state, rep, n, j);
      assert scoped[..n] == scoped;
    }
    forall c | c in scoped ensures exists k :: 0 <= k < |components| && c in components[k] {
      var i :| 0 <= i < n && scoped[i] == c;
      assert IsRoot(rep, n, rep[i]);
      var k :| 0 <= k < |table.order| && table.order[k] == rep[i];
      ClassPrefixIsFilter(scoped, state, rep, n, i);
      assert scoped[..n] == scoped && Connected(scoped, state, c, c);
    }
  }

  /** Two observations of a scope end in one component exactly when a chain of shared keys links them. */
  lemma SameComponentIffConnected(components: seq<seq<Classified>>, scoped: seq<Classified>, state: LinkageState,
                                  c: Classified, d: Classified)
    requires AreComponents(components, scoped, state) && c in scoped && d in scoped
    ensures (exists k :: 0 <= k < |components| && c in components[k] && d in components[k])
       <==> Connected(scoped, state, c, d)
  {
    if k :| 0 <= k < |components| && c in components[k] && d in components[k] {
      assert components[k] == ComponentOf(scoped, state, components[k][0]);
      ConnectedSymmetric(scoped, state, components[k][0], c);
      ConnectedTransitive(scoped, state, c, components[k][0], d);
    }
    if Connected(scoped, state, c, d) {
      var k :| 0 <= k < |components| && c in components[k];
      assert components[k] == ComponentOf(scoped, state, components[k][0]);
      ConnectedTransitive(scoped, state, components[k][0], c, d);
    }
  }
}
