/** The Levenshtein distance and its laws. */
module EditDistance {
  // A recursive definition, the two rolling rows that compute it, the metric laws, and its meaning as the
  // least number of single-character edits. Characters are code units, as `charCodeAt` gives them.

  import opened CodeUnits
  import opened Numbers

  function Cost(x: Unit, y: Unit): nat {
    if x == y then 0 else 1
  }

  function Init(s: Text): Text
    requires s != []
  {
    s[..|s| - 1]
  }

  function Last(s: Text): Unit
    requires s != []
  {
    s[|s| - 1]
  }

  /** The recursive edit distance, on last characters. */
  function Distance(a: Text, b: Text): nat
    decreases |a| + |b|
  {
    if a == [] then |b|
    else if b == [] then |a|
    else Min(Min(Distance(Init(a), b) + 1, Distance(a, Init(b)) + 1),
             Distance(Init(a), Init(b)) + Cost(Last(a), Last(b)))
  }

  // ------------------------------------------------- the rolling rows

  lemma {:induction false} DistanceUnfold(x: Text, y: Text)
    requires x != [] && y != []
    ensures Distance(x, y) == Min(Min(Distance(Init(x), y) + 1, Distance(x, Init(y)) + 1),
                                  Distance(Init(x), Init(y)) + Cost(Last(x), Last(y)))
  {}

  lemma PrefixStep(a: Text, b: Text, i: nat, j: nat)
    requires 0 < i <= |a| && 0 < j <= |b|
    ensures Distance(a[..i], b[..j])
         == Min(Min(Distance(a[..i - 1], b[..j]) + 1, Distance(a[..i], b[..j - 1]) + 1),
                Distance(a[..i - 1], b[..j - 1]) + Cost(a[i - 1], b[j - 1]))
  {
    var x, y := a[..i], b[..j];
    assert Init(x) == a[..i - 1] && Init(y) == b[..j - 1];
    assert Last(x) == a[i - 1] && Last(y) == b[j - 1];
    DistanceUnfold(x, y);
  }

  /** `row[j]` is the distance from the first `i` characters of `a` to the first `j` of `b`. */
  ghost predicate IsRow(row: array<nat>, a: Text, b: Text, i: nat, n: nat)
    requires i <= |a| && n <= |b| + 1
    reads row
  {
    n <= row.Length && forall j | 0 <= j < n :: row[j] == Distance(a[..i], b[..j])
  }

  /** The next row from the previous one. */
  method FillRow(previous: array<nat>, current: array<nat>, a: Text, b: Text, i: nat)
    requires 0 < i <= |a| && previous != current
    requires previous.Length == current.Length == |b| + 1
    requires IsRow(previous, a, b, i - 1, |b| + 1)
    modifies current
    ensures IsRow(current, a, b, i, |b| + 1)
  {
    ghost var before, row := TwoRows(a, b, i);
    current[0] := i;
    for j := 1 to |b| + 1
      invariant forall k | 0 <= k < j :: current[k] == row[k]
      invariant forall k | 0 <= k <= |b| :: previous[k] == before[k]
    {
      var cost := if a[i - 1] == b[j - 1] then 0 else 1;
      current[j] := Min(Min(previous[j] + 1, current[j - 1] + 1), previous[j - 1] + cost);
    }
  }

  /** The distances of one text to the prefixes of another. */
  function Row(x: Text, b: Text): (row: seq<nat>)
    ensures |row| == |b| + 1 && forall j | 0 <= j <= |b| :: row[j] == Distance(x, b[..j])
  {
    seq(|b| + 1, j requires 0 <= j <= |b| => Distance(x, b[..j]))
  }

  lemma RowRolls(a: Text, b: Text, i: nat, j: nat)
    requires 0 < i <= |a| && 0 < j <= |b|
    ensures var before, row := Row(a[..i - 1], b), Row(a[..i], b);
            row[j] == Min(Min(before[j] + 1, row[j - 1] + 1), before[j - 1] + Cost(a[i - 1], b[j - 1]))
  {
    PrefixStep(a, b, i, j);
  }

  /** Two rows of distances, and how the second comes from the first. */
  lemma TwoRows(a: Text, b: Text, i: nat) returns (before: seq<nat>, row: seq<nat>)
    requires 0 < i <= |a|
    ensures |before| == |row| == |b| + 1
    ensures forall j | 0 <= j <= |b| :: before[j] == Distance(a[..i - 1], b[..j]) && row[j] == Distance(a[..i], b[..j])
    ensures row[0] == i
    ensures forall j | 0 < j <= |b| ::
      row[j] == Min(Min(before[j] + 1, row[j - 1] + 1), before[j - 1] + Cost(a[i - 1], b[j - 1]))
  {
    before, row := Row(a[..i - 1], b), Row(a[..i], b);
    assert a[..i] != [] && b[..0] == [];
    forall j | 0 < j <= |b|
      ensures row[j] == Min(Min(before[j] + 1, row[j - 1] + 1), before[j - 1] + Cost(a[i - 1], b[j - 1]))
    {
      RowRolls(a, b, i, j);
    }
  }

  /** `levenshtein`: two rows, swapped after each character of `a`. */
  method Levenshtein(a: Text, b: Text) returns (distance: nat)
    ensures distance == Distance(a, b)
  {
    if a == b {
      DistanceZeroIff(a, b);
      return 0;
    }
    if |a| == 0 {
      return |b|;
    }
    if |b| == 0 {
      return |a|;
    }
    var previous := new nat[|b| + 1](j => j);
    var current := new nat[|b| + 1](j => 0);
    assert a[..0] == [] && forall j | 0 <= j <= |b| :: |b[..j]| == j;
    for i := 1 to |a| + 1
      invariant previous != current && fresh(previous) && fresh(current)
      invariant previous.Length == current.Length == |b| + 1
      invariant IsRow(previous, a, b, i - 1, |b| + 1)
    {
      FillRow(previous, current, a, b, i);
      previous, current := current, previous;
    }
    assert a[..|a|] == a && b[..|b|] == b;
    distance := previous[|b|];
  }

  // ------------------------------------------------- a metric

  lemma {:induction false} DistanceZeroIff(a: Text, b: Text)
    ensures Distance(a, b) == 0 <==> a == b
    decreases |a| + |b|
  {
    if a != [] && b != [] {
      DistanceZeroIff(Init(a), Init(b));
      assert a == Init(a) + [Last(a)] && b == Init(b) + [Last(b)];
    }
  }

  lemma {:induction false} DistanceSymmetric(a: Text, b: Text)
    ensures Distance(a, b) == Distance(b, a)
    decreases |a| + |b|
  {
    if a != [] && b != [] {
      DistanceSymmetric(Init(a), b);
      DistanceSymmetric(a, Init(b));
      DistanceSymmetric(Init(a), Init(b));
    }
  }

  /** Dropping the last character of either text changes the distance by at most one. */
  lemma {:induction false} DropLast(a: Text, b: Text)
    requires b != []
    ensures Distance(a, b) <= Distance(a, Init(b)) + 1
    ensures Distance(b, a) <= Distance(Init(b), a) + 1
  {
    DistanceSymmetric(a, b);
    DistanceSymmetric(a, Init(b));
  }

  lemma {:induction false} TriangleInequality(a: Text, b: Text, c: Text)
    ensures Distance(a, c) <= Distance(a, b) + Distance(b, c)
    decreases |a| + |b| + |c|
  {
    if a == [] {
      LengthBound(b, c);
    } else if c == [] {
      LengthBound(a, b);
      DistanceSymmetric(a, b);
    } else if b == [] {
      LengthSum(a, c);
    } else {
      TriangleInequality(Init(a), b, c);
      TriangleInequality(a, b, Init(c));
      TriangleInequality(a, Init(b), c);
      TriangleInequality(a, Init(b), Init(c));
      TriangleInequality(Init(a), Init(b), c);
      TriangleInequality(Init(a), Init(b), Init(c));
    }
  }

  /** The distance is at least the difference of the lengths. */
  lemma {:induction false} LengthBound(a: Text, b: Text)
    ensures |b| <= |a| + Distance(a, b) && |a| <= |b| + Distance(a, b)
    decreases |a| + |b|
  {
    if a != [] && b != [] {
      LengthBound(Init(a), b);
      LengthBound(a, Init(b));
      LengthBound(Init(a), Init(b));
    }
  }

  /** The distance is at most the sum of the lengths. */
  lemma {:induction false} LengthSum(a: Text, b: Text)
    ensures Distance(a, b) <= |a| + |b|
    decreases |a| + |b|
  {
    if a != [] && b != [] {
      LengthSum(Init(a), b);
    }
  }

  lemma {:induction false} AppendBound(p: Text, s: Text)
    ensures Distance(p, p + s) <= |s|
    decreases |s|
  {
    if s == [] {
      assert p + s == p;
      DistanceZeroIff(p, p);
    } else {
      AppendBound(p, Init(s));
      assert Init(p + s) == p + Init(s);
      DropLast(p, p + s);
    }
  }

  /** A completion is as far away as it is longer. */
  lemma DistanceToCompletion(p: Text, s: Text)
    ensures Distance(p, p + s) == |s|
  {
    AppendBound(p, s);
    LengthBound(p, p + s);
  }

  // ------------------------------------------------- the least number of edits

  /** `b` is `a` with one character inserted, deleted or replaced. */
  ghost predicate OneEdit(a: Text, b: Text) {
    || (exists i: nat, c :: Inserted(a, b, i, c))
    || (exists i: nat, c :: Inserted(b, a, i, c))
    || (exists i: nat, c :: Replaced(a, b, i, c))
  }

  ghost predicate Replaced(a: Text, b: Text, i: nat, c: Unit) {
    i < |a| && b == a[i := c]
  }

  ghost predicate Inserted(a: Text, b: Text, i: nat, c: Unit) {
    i <= |a| && b == a[..i] + [c] + a[i..]
  }

  /** `steps` leads from `a` to `b` by single edits. */
  ghost predicate EditScript(steps: seq<Text>, a: Text, b: Text) {
    && steps != [] && steps[0] == a && steps[|steps| - 1] == b
    && forall i | 0 <= i < |steps| - 1 :: OneEdit(steps[i], steps[i + 1])
  }

  /** A common suffix does not add to the distance. */
  lemma {:induction false} CommonSuffix(a: Text, b: Text, s: Text)
    ensures Distance(a + s, b + s) <= Distance(a, b)
    decreases |s|
  {
    if s == [] {
      assert a + s == a && b + s == b;
    } else {
      CommonSuffix(a, b, Init(s));
      assert Init(a + s) == a + Init(s) && Init(b + s) == b + Init(s);
    }
  }

  lemma OneEditIsNear(a: Text, b: Text)
    requires OneEdit(a, b)
    ensures Distance(a, b) <= 1
  {
    if i: nat, c :| Inserted(a, b, i, c) {
      InsertionIsNear(a, b, i, c);
    } else if i: nat, c :| Inserted(b, a, i, c) {
      InsertionIsNear(b, a, i, c);
      DistanceSymmetric(a, b);
    } else {
      var i: nat, c :| Replaced(a, b, i, c);
      var p, s := a[..i], a[i + 1..];
      assert a == (p + [a[i]]) + s && b == (p + [c]) + s;
      CommonSuffix(p + [a[i]], p + [c], s);
      assert Init(p + [a[i]]) == p && Init(p + [c]) == p;
      DistanceZeroIff(p, p);
    }
  }

  lemma InsertionIsNear(a: Text, b: Text, i: nat, c: Unit)
    requires Inserted(a, b, i, c)
    ensures Distance(a, b) <= 1
  {
    var p, s := a[..i], a[i..];
    assert a == p + s && b == (p + [c]) + s;
    CommonSuffix(p, p + [c], s);
    DistanceToCompletion(p, [c]);
  }

  /** No edit script is shorter than the distance. */
  lemma {:induction false} ScriptsAreLong(steps: seq<Text>, a: Text, b: Text)
    requires EditScript(steps, a, b)
    ensures Distance(a, b) <= |steps| - 1
    decreases |steps|
  {
    if |steps| == 1 {
      DistanceZeroIff(a, b);
    } else {
      var next := steps[1];
      assert OneEdit(steps[0], steps[1]);
      OneEditIsNear(a, next);
      forall i | 0 <= i < |steps[1..]| - 1 ensures OneEdit(steps[1..][i], steps[1..][i + 1]) {
        assert OneEdit(steps[i + 1], steps[i + 2]);
      }
      assert EditScript(steps[1..], next, b);
      ScriptsAreLong(steps[1..], next, b);
      TriangleInequality(a, next, b);
    }
  }

  /** Some edit script is exactly as long as the distance. */
  lemma {:induction false} ShortestScript(a: Text, b: Text) returns (steps: seq<Text>)
    ensures EditScript(steps, a, b) && |steps| == Distance(a, b) + 1
    decreases |a| + |b|
  {
    if a == [] && b == [] {
      steps := [a];
    } else if a == [] {
      steps := InsertLast(a, b);
    } else if b == [] || Distance(a, b) == Distance(Init(a), b) + 1 {
      var rest := ShortestScript(Init(a), b);
      assert Inserted(Init(a), a, |a| - 1, Last(a)) by {
        assert a == Init(a) + [Last(a)] + Init(a)[|a| - 1..];
      }
      steps := Prepend(a, rest, b);
    } else if Distance(a, b) == Distance(a, Init(b)) + 1 {
      steps := InsertLast(a, b);
    } else {
      steps := ReplaceLast(a, b);
    }
  }

  lemma Prepend(a: Text, rest: seq<Text>, b: Text) returns (steps: seq<Text>)
    requires rest != [] && EditScript(rest, rest[0], b) && OneEdit(a, rest[0])
    ensures EditScript(steps, a, b) && |steps| == |rest| + 1
  {
    steps := [a] + rest;
    forall i | 0 <= i < |steps| - 1 ensures OneEdit(steps[i], steps[i + 1]) {
      assert i > 0 ==> OneEdit(rest[i - 1], rest[i]);
    }
  }

  lemma Append(a: Text, rest: seq<Text>, b: Text) returns (steps: seq<Text>)
    requires rest != [] && EditScript(rest, a, rest[|rest| - 1]) && OneEdit(rest[|rest| - 1], b)
    ensures EditScript(steps, a, b) && |steps| == |rest| + 1
  {
    steps := rest + [b];
    forall i | 0 <= i < |steps| - 1 ensures OneEdit(steps[i], steps[i + 1]) {
      assert i < |rest| - 1 ==> OneEdit(rest[i], rest[i + 1]);
    }
  }

  /** Reach `b` without its last character, then insert it. */
  lemma InsertLast(a: Text, b: Text) returns (steps: seq<Text>)
    requires b != [] && Distance(a, b) == Distance(a, Init(b)) + 1
    ensures EditScript(steps, a, b) && |steps| == Distance(a, b) + 1
    decreases |a| + |b|, 0
  {
    var rest := ShortestScript(a, Init(b));
    assert Inserted(Init(b), b, |b| - 1, Last(b)) by {
      assert b == Init(b) + [Last(b)] + Init(b)[|b| - 1..];
    }
    steps := Append(a, rest, b);
  }

  /** Keep or replace the last character once the rest is done. */
  lemma ReplaceLast(a: Text, b: Text) returns (steps: seq<Text>)
    requires a != [] && b != [] && Distance(a, b) == Distance(Init(a), Init(b)) + Cost(Last(a), Last(b))
    ensures EditScript(steps, a, b) && |steps| == Distance(a, b) + 1
    decreases |a| + |b|, 0
  {
    var rest := ShortestScript(Init(a), Init(b));
    var lifted := Lift(rest, Init(a), Init(b), Last(a));
    assert a == Init(a) + [Last(a)] && b == Init(b) + [Last(b)];
    if Last(a) == Last(b) {
      steps := lifted;
    } else {
      var mid := Init(b) + [Last(a)];
      assert Replaced(mid, b, |b| - 1, Last(b));
      steps := Append(a, lifted, b);
    }
  }

  /** The same edits with one more character at the end. */
  lemma Lift(steps: seq<Text>, a: Text, b: Text, c: Unit) returns (lifted: seq<Text>)
    requires EditScript(steps, a, b)
    ensures EditScript(lifted, a + [c], b + [c]) && |lifted| == |steps|
  {
    lifted := seq(|steps|, i requires 0 <= i < |steps| => steps[i] + [c]);
    forall i | 0 <= i < |lifted| - 1 ensures OneEdit(lifted[i], lifted[i + 1]) {
      assert OneEdit(steps[i], steps[i + 1]);
      LiftEdit(steps[i], steps[i + 1], c);
    }
  }

  lemma LiftEdit(x: Text, y: Text, c: Unit)
    requires OneEdit(x, y)
    ensures OneEdit(x + [c], y + [c])
  {
    if i: nat, d :| Inserted(x, y, i, d) {
      LiftInsertion(x, y, i, d, c);
    } else if i: nat, d :| Inserted(y, x, i, d) {
      LiftInsertion(y, x, i, d, c);
    } else {
      var i: nat, d :| Replaced(x, y, i, d);
      assert Replaced(x + [c], y + [c], i, d);
    }
  }

  lemma LiftInsertion(x: Text, y: Text, i: nat, d: Unit, c: Unit)
    requires Inserted(x, y, i, d)
    ensures Inserted(x + [c], y + [c], i, d)
  {
    assert (x + [c])[..i] == x[..i] && (x + [c])[i..] == x[i..] + [c];
  }

  /** The distance is the least number of single-character edits that turn one text into the other. */
  lemma DistanceIsLeastEdits(a: Text, b: Text, n: nat)
    ensures Distance(a, b) <= n <==> exists steps :: EditScript(steps, a, b) && |steps| - 1 <= n
  {
    var best := ShortestScript(a, b);
    if Distance(a, b) <= n {
      assert EditScript(best, a, b) && |best| - 1 <= n;
    }
    if steps :| EditScript(steps, a, b) && |steps| - 1 <= n {
      ScriptsAreLong(steps, a, b);
    }
  }
}
