/** Sequence helpers that several modules share: filters, maps and flat maps, with their laws over
    concatenation, permutation and counting, and lists without duplicates. Closures that are compared
    across lemmas come from named functions, so that equal arguments give equal closures. */
module Sequences {

  function Filter<T>(xs: seq<T>, p: T -> bool): (r: seq<T>)
    ensures forall x | x in r :: x in xs && p(x)
    ensures forall x | x in xs && p(x) :: x in r
    ensures |r| <= |xs|
  {
    if xs == [] then []
    else (if p(xs[0]) then [xs[0]] else []) + Filter(xs[1..], p)
  }

  function Map<T, U>(xs: seq<T>, f: T -> U): (r: seq<U>)
    ensures |r| == |xs| && forall i | 0 <= i < |xs| :: r[i] == f(xs[i])
  {
    seq(|xs|, i requires 0 <= i < |xs| => f(xs[i]))
  }

  predicate NoDuplicates<T(==)>(xs: seq<T>) {
    forall i, j | 0 <= i < j < |xs| :: xs[i] != xs[j]
  }

  lemma {:induction false} FilterAppend<T>(xs: seq<T>, ys: seq<T>, p: T -> bool)
    ensures Filter(xs + ys, p) == Filter(xs, p) + Filter(ys, p)
  {
    if xs == [] {
      assert xs + ys == ys;
    } else {
      FilterAppend(xs[1..], ys, p);
      assert (xs + ys)[1..] == xs[1..] + ys;
      ConcatAssoc(if p(xs[0]) then [xs[0]] else [], Filter(xs[1..], p), Filter(ys, p));
    }
  }

  lemma ConcatAssoc<T>(xs: seq<T>, ys: seq<T>, zs: seq<T>)
    ensures xs + (ys + zs) == (xs + ys) + zs
  {}

  lemma FilterPush<T>(xs: seq<T>, y: T, p: T -> bool)
    ensures Filter(xs + [y], p) == Filter(xs, p) + (if p(y) then [y] else [])
  {
    FilterAppend(xs, [y], p);
    assert [y][1..] == [];
  }

  lemma {:induction false} FilterAgree<T>(xs: seq<T>, p: T -> bool, q: T -> bool)
    requires forall x | x in xs :: p(x) == q(x)
    ensures Filter(xs, p) == Filter(xs, q)
  {
    if xs != [] {
      assert xs[0] in xs && forall x | x in xs[1..] :: x in xs;
      FilterAgree(xs[1..], p, q);
    }
  }

  lemma {:induction false} FilterMultiset<T>(xs: seq<T>, p: T -> bool, x: T)
    ensures multiset(Filter(xs, p))[x] == if p(x) then multiset(xs)[x] else 0
  {
    if xs != [] {
      FilterMultiset(xs[1..], p, x);
      var front := if p(xs[0]) then [xs[0]] else [];
      assert multiset(front + Filter(xs[1..], p)) == multiset(front) + multiset(Filter(xs[1..], p));
      assert xs == [xs[0]] + xs[1..];
    }
  }

  /** Permuting the input permutes what a filter keeps. */
  lemma FilterPermutation<T(!new)>(xs: seq<T>, ys: seq<T>, p: T -> bool)
    requires multiset(xs) == multiset(ys)
    ensures multiset(Filter(xs, p)) == multiset(Filter(ys, p))
    ensures |Filter(xs, p)| == |Filter(ys, p)|
  {
    var kept, kept' := Filter(xs, p), Filter(ys, p);
    forall x ensures multiset(kept)[x] == multiset(kept')[x] {
      FilterMultiset(xs, p, x);
      FilterMultiset(ys, p, x);
    }
    assert multiset(kept) == multiset(kept');
    assert |kept| == |multiset(kept)| == |multiset(kept')| == |kept'|;
  }

  lemma SameMembers<T(!new)>(xs: seq<T>, ys: seq<T>)
    requires multiset(xs) == multiset(ys)
    ensures forall x :: x in xs <==> x in ys
    ensures |xs| == |ys|
  {
    forall x ensures x in xs <==> x in ys {
      assert x in xs <==> x in multiset(xs);
      assert x in ys <==> x in multiset(ys);
    }
    assert |multiset(xs)| == |xs| && |multiset(ys)| == |ys|;
  }

  lemma {:induction false} MapCount<T, U>(xs: seq<T>, f: T -> U, u: U)
    ensures multiset(Map(xs, f))[u] == |Filter(xs, x => f(x) == u)|
  {
    if xs != [] {
      MapCount(xs[1..], f, u);
      assert Map(xs, f) == [f(xs[0])] + Map(xs[1..], f);
    }
  }

  /** Mapping commutes with permuting. */
  lemma MapPermutation<T(!new), U(!new)>(xs: seq<T>, ys: seq<T>, f: T -> U)
    requires multiset(xs) == multiset(ys)
    ensures multiset(Map(xs, f)) == multiset(Map(ys, f))
  {
    forall u ensures multiset(Map(xs, f))[u] == multiset(Map(ys, f))[u] {
      MapCount(xs, f, u);
      MapCount(ys, f, u);
      FilterPermutation(xs, ys, x => f(x) == u);
    }
  }

  lemma {:induction false} FilterAll<T>(xs: seq<T>, p: T -> bool)
    requires forall x | x in xs :: p(x)
    ensures Filter(xs, p) == xs
  {
    if xs != [] {
      assert xs[0] in xs && forall x | x in xs[1..] :: x in xs;
      FilterAll(xs[1..], p);
    }
  }

  lemma {:induction false} FilterNone<T>(xs: seq<T>, p: T -> bool)
    requires forall x | x in xs :: !p(x)
    ensures Filter(xs, p) == []
  {
    if xs != [] {
      assert xs[0] in xs && forall x | x in xs[1..] :: x in xs;
      FilterNone(xs[1..], p);
    }
  }

  /** What a filter keeps when it keeps exactly a prefix. */
  lemma {:induction false} FilterIsPrefix<T>(xs: seq<T>, i: nat, p: T -> bool)
    requires i <= |xs| && (forall k | 0 <= k < i :: p(xs[k])) && (forall k | i <= k < |xs| :: !p(xs[k]))
    ensures Filter(xs, p) == xs[..i]
    decreases i
  {
    if i == 0 {
      FilterNone(xs, p);
    } else {
      assert forall k | 0 <= k < |xs| - 1 :: xs[1..][k] == xs[k + 1];
      FilterIsPrefix(xs[1..], i - 1, p);
      assert xs[..i] == [xs[0]] + xs[1..][..i - 1];
    }
  }

  /** Counting by cases: exactly one of `q` and `r` holds where `p` does. */
  lemma {:induction false} FilterSplit<T>(xs: seq<T>, p: T -> bool, q: T -> bool, r: T -> bool)
    requires forall x | x in xs :: (p(x) <==> q(x) || r(x)) && !(q(x) && r(x))
    ensures |Filter(xs, p)| == |Filter(xs, q)| + |Filter(xs, r)|
  {
    if xs != [] {
      assert xs[0] in xs && forall x | x in xs[1..] :: x in xs;
      FilterSplit(xs[1..], p, q, r);
    }
  }

  function ToSet<T>(xs: seq<T>): set<T> {
    set x | x in xs
  }

  lemma {:induction false} DistinctCardinality<T>(xs: seq<T>)
    requires NoDuplicates(xs)
    ensures |ToSet(xs)| == |xs|
  {
    if xs != [] {
      var rest := xs[1..];
      assert forall i | 0 <= i < |rest| :: rest[i] == xs[i + 1];
      DistinctCardinality(rest);
      assert ToSet(xs) == ToSet(rest) + {xs[0]};
    }
  }

  lemma {:induction false} DistinctMultiset<T>(xs: seq<T>)
    requires NoDuplicates(xs)
    ensures multiset(xs) == multiset(ToSet(xs))
  {
    if xs != [] {
      var rest := xs[1..];
      assert forall i | 0 <= i < |rest| :: rest[i] == xs[i + 1];
      DistinctMultiset(rest);
      assert xs == [xs[0]] + rest;
      assert ToSet(xs) == ToSet(rest) + {xs[0]};
    }
  }

  /** Sequences without duplicates, equally long, one inside the other: permutations of each other. */
  lemma DistinctPermutation<T>(xs: seq<T>, ys: seq<T>)
    requires NoDuplicates(xs) && NoDuplicates(ys) && |xs| == |ys|
    requires forall x | x in xs :: x in ys
    ensures multiset(xs) == multiset(ys)
  {
    DistinctCardinality(xs);
    DistinctCardinality(ys);
    DistinctMultiset(xs);
    DistinctMultiset(ys);
    SubsetOfSameSize(ToSet(xs), ToSet(ys));
  }

  lemma SubsetOfSameSize<T>(a: set<T>, b: set<T>)
    requires a <= b && |a| == |b|
    ensures a == b
  {
    assert |b - a| == |b| - |a|;
    assert b - a == {};
  }

  function Flatten<T>(xs: seq<seq<T>>): seq<T> {
    if xs == [] then [] else xs[0] + Flatten(xs[1..])
  }

  lemma {:induction false} FlattenAppend<T>(xs: seq<seq<T>>, ys: seq<seq<T>>)
    ensures Flatten(xs + ys) == Flatten(xs) + Flatten(ys)
  {
    if xs == [] {
      assert xs + ys == ys;
    } else {
      FlattenAppend(xs[1..], ys);
      assert (xs + ys)[1..] == xs[1..] + ys;
      ConcatAssoc(xs[0], Flatten(xs[1..]), Flatten(ys));
    }
  }

  lemma FlattenPush<T>(xs: seq<seq<T>>, y: seq<T>)
    ensures Flatten(xs + [y]) == Flatten(xs) + y
  {
    FlattenAppend(xs, [y]);
    assert [y][1..] == [];
  }

  lemma TwoOccurrences<T>(xs: seq<T>, i: nat, j: nat)
    requires i < j < |xs| && xs[i] == xs[j]
    ensures multiset(xs)[xs[i]] >= 2
  {
    assert xs == xs[..j] + ([xs[j]] + xs[j + 1..]);
    assert xs[i] == xs[..j][i] && xs[i] in multiset(xs[..j]);
  }

  /** A permutation of a sequence without duplicates has none either. */
  lemma NoDuplicatesPermutation<T>(xs: seq<T>, ys: seq<T>)
    requires NoDuplicates(xs) && multiset(xs) == multiset(ys)
    ensures NoDuplicates(ys)
  {
    DistinctMultiset(xs);
    forall i, j | 0 <= i < j < |ys| ensures ys[i] != ys[j] {
      if ys[i] == ys[j] {
        TwoOccurrences(ys, i, j);
      }
    }
  }

  predicate FromSome<T, U(==)>(xs: seq<T>, f: T -> seq<U>, y: U) {
    exists i :: 0 <= i < |xs| && y in f(xs[i])
  }

  /** `flatMap`. */
  function FlatMap<T, U>(xs: seq<T>, f: T -> seq<U>): seq<U> {
    if xs == [] then [] else FlatMap(xs[..|xs| - 1], f) + f(xs[|xs| - 1])
  }

  lemma FlatMapPush<T, U>(xs: seq<T>, x: T, f: T -> seq<U>)
    ensures FlatMap(xs + [x], f) == FlatMap(xs, f) + f(x)
  {
    assert (xs + [x])[..|xs|] == xs;
  }

  lemma FlatMapPair<T, U>(x: T, y: T, f: T -> seq<U>)
    ensures FlatMap([x, y], f) == f(x) + f(y)
  {
    FlatMapPush([], x, f);
    FlatMapPush([x], y, f);
    assert [] + [x] == [x] && [x] + [y] == [x, y];
  }

  lemma {:induction false} FlatMapMembers<T, U>(xs: seq<T>, f: T -> seq<U>, y: U)
    ensures y in FlatMap(xs, f) <==> FromSome(xs, f, y)
  {
    if xs != [] {
      var init := xs[..|xs| - 1];
      FlatMapMembers(init, f, y);
      if FromSome(init, f, y) {
        var i :| 0 <= i < |init| && y in f(init[i]);
        assert y in f(xs[i]);
      }
      if FromSome(xs, f, y) && y !in f(xs[|xs| - 1]) {
        var i :| 0 <= i < |xs| && y in f(xs[i]);
        assert y in f(init[i]);
      }
    }
  }

  /** With one value from each element, the values correspond to the elements. */
  lemma {:induction false} FlatMapSingles<T, U>(xs: seq<T>, f: T -> seq<U>)
    requires forall i | 0 <= i < |xs| :: |f(xs[i])| == 1
    ensures |FlatMap(xs, f)| == |xs| && forall i | 0 <= i < |xs| :: FlatMap(xs, f)[i] == f(xs[i])[0]
  {
    if xs != [] {
      FlatMapSingles(xs[..|xs| - 1], f);
    }
  }
}
