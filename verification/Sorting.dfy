/** `Array.prototype.sort`: a stable sort by a comparison. `le(x, y)` stands for a comparator whose
    result for `(x, y)` is not positive. With a comparison under which different elements of a list are
    never equal, the result depends only on which elements the list has, and how often. */
module Sorting {
  import opened Sequences

  ghost predicate TotalPreorder<T(!new)>(le: (T, T) -> bool) {
    && (forall x, y :: le(x, y) || le(y, x))
    && (forall x, y, z :: le(x, y) && le(y, z) ==> le(x, z))
  }

  ghost predicate TotalOrder<T(!new)>(le: (T, T) -> bool) {
    TotalPreorder(le) && forall x, y :: le(x, y) && le(y, x) ==> x == y
  }

  predicate Sorted<T>(xs: seq<T>, le: (T, T) -> bool) {
    forall i, j | 0 <= i < j < |xs| :: le(xs[i], xs[j])
  }

  function Insert<T>(x: T, xs: seq<T>, le: (T, T) -> bool): seq<T> {
    if xs == [] || le(x, xs[0]) then [x] + xs else [xs[0]] + Insert(x, xs[1..], le)
  }

  function StableSort<T>(xs: seq<T>, le: (T, T) -> bool): seq<T> {
    if xs == [] then [] else Insert(xs[0], StableSort(xs[1..], le), le)
  }

  lemma {:induction false} InsertIsPermutation<T>(x: T, xs: seq<T>, le: (T, T) -> bool)
    ensures multiset(Insert(x, xs, le)) == multiset{x} + multiset(xs)
  {
    if xs != [] && !le(x, xs[0]) {
      InsertIsPermutation(x, xs[1..], le);
      assert xs == [xs[0]] + xs[1..];
    }
  }

  lemma {:induction false} InsertIsSorted<T(!new)>(x: T, xs: seq<T>, le: (T, T) -> bool)
    requires TotalPreorder(le) && Sorted(xs, le)
    ensures Sorted(Insert(x, xs, le), le)
  {
    if xs != [] && !le(x, xs[0]) {
      InsertIsSorted(x, xs[1..], le);
      InsertIsPermutation(x, xs[1..], le);
      var tail := Insert(x, xs[1..], le);
      forall y | y in tail ensures le(xs[0], y) {
        assert y in multiset(tail);
      }
    } else if xs != [] {
      assert forall i | 0 <= i < |xs| :: le(xs[0], xs[i]) by { assert le(xs[0], xs[0]); }
    }
  }

  /** A stable sort is sorted and holds the same elements. */
  lemma {:induction false} StableSortSorts<T(!new)>(xs: seq<T>, le: (T, T) -> bool)
    requires TotalPreorder(le)
    ensures Sorted(StableSort(xs, le), le)
    ensures multiset(StableSort(xs, le)) == multiset(xs)
  {
    if xs != [] {
      StableSortSorts(xs[1..], le);
      InsertIsSorted(xs[0], StableSort(xs[1..], le), le);
      InsertIsPermutation(xs[0], StableSort(xs[1..], le), le);
      assert xs == [xs[0]] + xs[1..];
    }
  }

  lemma StableSortMembers<T(!new)>(xs: seq<T>, le: (T, T) -> bool)
    requires TotalPreorder(le)
    ensures forall x :: x in StableSort(xs, le) <==> x in xs
    ensures |StableSort(xs, le)| == |xs|
  {
    StableSortSorts(xs, le);
    SameMembers(StableSort(xs, le), xs);
  }

  lemma {:induction false} InsertIsStable<T(!new)>(x: T, xs: seq<T>, le: (T, T) -> bool, p: T -> bool)
    requires TotalPreorder(le) && Sorted(xs, le)
    requires forall y, z | p(y) && p(z) :: le(y, z)
    ensures Filter(Insert(x, xs, le), p) == Filter([x] + xs, p)
  {
    if xs != [] && !le(x, xs[0]) {
      InsertIsStable(x, xs[1..], le, p);
      assert Insert(x, xs, le)[1..] == Insert(x, xs[1..], le);
      assert ([x] + xs)[1..] == xs && ([x] + xs[1..])[1..] == xs[1..];
      assert !(p(x) && p(xs[0]));
    }
  }

  /** Elements that compare equal keep their order. */
  lemma {:induction false} StableSortIsStable<T(!new)>(xs: seq<T>, le: (T, T) -> bool, p: T -> bool)
    requires TotalPreorder(le)
    requires forall y, z | p(y) && p(z) :: le(y, z)
    ensures Filter(StableSort(xs, le), p) == Filter(xs, p)
  {
    if xs != [] {
      var tail := StableSort(xs[1..], le);
      StableSortIsStable(xs[1..], le, p);
      StableSortSorts(xs[1..], le);
      InsertIsStable(xs[0], tail, le, p);
      assert ([xs[0]] + tail)[1..] == tail;
    }
  }

  /** No two different elements of the sequence compare equal. */
  ghost predicate Antisymmetric<T>(xs: seq<T>, le: (T, T) -> bool) {
    forall x, y | x in xs && y in xs && le(x, y) && le(y, x) :: x == y
  }

  lemma SortedHeadIsLeast<T(!new)>(xs: seq<T>, ys: seq<T>, le: (T, T) -> bool)
    requires TotalPreorder(le) && Antisymmetric(xs, le)
    requires Sorted(xs, le) && Sorted(ys, le) && xs != [] && ys != []
    requires forall x :: x in xs <==> x in ys
    ensures xs[0] == ys[0]
  {
    assert xs[0] in ys && ys[0] in xs;
    assert le(xs[0], ys[0]) by {
      var j :| 0 <= j < |xs| && xs[j] == ys[0];
    }
    assert le(ys[0], xs[0]) by {
      var i :| 0 <= i < |ys| && ys[i] == xs[0];
    }
  }

  /** There is only one sorted arrangement of elements that never tie. */
  lemma {:induction false} SortedIsUnique<T(!new)>(xs: seq<T>, ys: seq<T>, le: (T, T) -> bool)
    requires TotalPreorder(le) && Antisymmetric(xs, le) && Sorted(xs, le) && Sorted(ys, le)
    requires multiset(xs) == multiset(ys)
    ensures xs == ys
  {
    SameMembers(xs, ys);
    if xs != [] {
      SortedHeadIsLeast(xs, ys, le);
      assert xs == [xs[0]] + xs[1..] && ys == [ys[0]] + ys[1..];
      assert multiset(xs[1..]) == multiset(xs) - multiset{xs[0]};
      assert multiset(ys[1..]) == multiset(ys) - multiset{ys[0]};
      SortedIsUnique(xs[1..], ys[1..], le);
    }
  }

  /** Sorting elements that never tie forgets the order of the input. */
  lemma SortForgetsOrder<T(!new)>(xs: seq<T>, ys: seq<T>, le: (T, T) -> bool)
    requires TotalPreorder(le) && Antisymmetric(xs, le) && multiset(xs) == multiset(ys)
    ensures StableSort(xs, le) == StableSort(ys, le)
  {
    StableSortSorts(xs, le);
    StableSortSorts(ys, le);
    StableSortMembers(xs, le);
    SortedIsUnique(StableSort(xs, le), StableSort(ys, le), le);
  }

  lemma {:induction false} InsertMap<T(!new), U>(x: T, xs: seq<T>, f: T -> U, le: (T, T) -> bool, le': (U, U) -> bool)
    requires forall a, b :: le(a, b) == le'(f(a), f(b))
    ensures Map(Insert(x, xs, le), f) == Insert(f(x), Map(xs, f), le')
  {
    if xs == [] || le(x, xs[0]) {
      assert Map([x] + xs, f) == [f(x)] + Map(xs, f);
    } else {
      InsertMap(x, xs[1..], f, le, le');
      assert Map(xs, f)[1..] == Map(xs[1..], f);
      assert Map([xs[0]] + Insert(x, xs[1..], le), f) == [f(xs[0])] + Map(Insert(x, xs[1..], le), f);
    }
  }

  /** Sorting by what a projection keeps commutes with the projection. */
  lemma {:induction false} SortMap<T(!new), U>(xs: seq<T>, f: T -> U, le: (T, T) -> bool, le': (U, U) -> bool)
    requires forall a, b :: le(a, b) == le'(f(a), f(b))
    ensures Map(StableSort(xs, le), f) == StableSort(Map(xs, f), le')
  {
    if xs != [] {
      SortMap(xs[1..], f, le, le');
      InsertMap(xs[0], StableSort(xs[1..], le), f, le, le');
      assert Map(xs, f)[1..] == Map(xs[1..], f);
    }
  }
}
