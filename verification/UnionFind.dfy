/** The union-find forest that groups observations: an array of parents, with path compression in
    `Find` and no ranks in `Union`. */
module UnionFind {

  /** The representative of every element once the classes of `left` and `right` are one. */
  function Merged(rep: seq<nat>, left: nat, right: nat): (r: seq<nat>)
    requires left < |rep| && right < |rep|
    ensures |r| == |rep|
    ensures forall i, j | 0 <= i < |rep| && 0 <= j < |rep| ::
      r[i] == r[j] <==>
        || rep[i] == rep[j]
        || (rep[i] == rep[left] && rep[j] == rep[right])
        || (rep[i] == rep[right] && rep[j] == rep[left])
  {
    seq(|rep|, i requires 0 <= i < |rep| => if rep[i] == rep[right] then rep[left] else rep[i])
  }

  /** `parent` is a forest whose roots are given by `rep`. Parents are higher than their children,
      which is why following parents ends. */
  ghost predicate IsForest(parent: seq<nat>, rep: seq<nat>, height: seq<nat>, top: nat) {
    && |parent| == |rep| == |height|
    && forall i | 0 <= i < |parent| :: Node(i, parent, rep, height, top)
  }

  ghost predicate Node(i: nat, parent: seq<nat>, rep: seq<nat>, height: seq<nat>, top: nat)
    requires |parent| == |rep| == |height| && i < |parent|
  {
    && parent[i] < |parent| && rep[i] < |parent| && height[i] <= top
    && (parent[i] == i <==> rep[i] == i)
    && rep[parent[i]] == rep[i] && rep[rep[i]] == rep[i]
    && (parent[i] != i ==> height[i] < height[parent[i]])
  }

  /** Path compression keeps the forest and every root. */
  lemma Compressing(parent: seq<nat>, rep: seq<nat>, height: seq<nat>, top: nat, i: nat)
    requires IsForest(parent, rep, height, top) && i < |parent| && parent[i] != i
    requires rep[i] < |height| && height[rep[i]] > height[i]
    ensures IsForest(parent[i := rep[i]], rep, height, top)
  {
    assert Node(i, parent, rep, height, top);
    var parent' := parent[i := rep[i]];
    forall j | 0 <= j < |parent| ensures Node(j, parent', rep, height, top) {
      assert Node(j, parent, rep, height, top);
    }
  }

  /** Hanging one root under another merges their classes. */
  lemma Hanging(parent: seq<nat>, rep: seq<nat>, height: seq<nat>, top: nat, l: nat, r: nat)
    returns (height': seq<nat>, top': nat)
    requires IsForest(parent, rep, height, top) && l < |parent| && r < |parent|
    requires rep[l] == l && rep[r] == r && l != r
    ensures IsForest(parent[r := l], Merged(rep, l, r), height', top')
  {
    height' := height[l := if height[l] > height[r] then height[l] else height[r] + 1];
    top' := if top < height'[l] then height'[l] else top;
    var rep' := Merged(rep, l, r);
    assert Node(l, parent, rep, height, top) && Node(r, parent, rep, height, top);
    var parent' := parent[r := l];
    forall j | 0 <= j < |parent| ensures Node(j, parent', rep', height', top') {
      assert Node(j, parent, rep, height, top);
      assert Node(parent[j], parent, rep, height, top) && Node(rep[j], parent, rep, height, top);
    }
  }

  class Forest {
    const parent: array<nat>
    /** The root of every element. */
    ghost var rep: seq<nat>
    ghost var height: seq<nat>
    ghost var top: nat

    ghost predicate Valid()
      reads this, parent
    {
      IsForest(parent[..], rep, height, top)
    }

    /** Every element is its own class. */
    constructor (n: nat)
      ensures Valid() && fresh(parent) && parent.Length == n
      ensures rep == seq(n, i => i)
    {
      parent := new nat[n](i => i);
      rep, height, top := seq(n, i => i), seq(n, i => 0), 0;
    }

    /** The root of an element; its whole path is redirected to the root. */
    method Find(index: nat) returns (root: nat)
      requires Valid() && index < parent.Length
      modifies parent
      ensures Valid() && root == rep[index]
      ensures root == index || (root < |height| && height[root] > height[index])
      decreases top - height[index]
    {
      assert Node(index, parent[..], rep, height, top);
      var current := parent[index];
      if current == index {
        return index;
      }
      root := Find(current);
      ghost var before := parent[..];
      assert Node(index, before, rep, height, top) && Node(current, before, rep, height, top);
      Compressing(before, rep, height, top, index);
      parent[index] := root;
      assert parent[..] == before[index := root];
    }

    method Union(left: nat, right: nat)
      requires Valid() && left < parent.Length && right < parent.Length
      modifies this, parent
      ensures Valid() && rep == Merged(old(rep), left, right)
    {
      var leftRoot := Find(left);
      var rightRoot := Find(right);
      assert Node(left, parent[..], rep, height, top) && Node(right, parent[..], rep, height, top);
      assert Merged(rep, left, right) == Merged(rep, leftRoot, rightRoot);
      if leftRoot != rightRoot {
        ghost var before := parent[..];
        ghost var height', top' := Hanging(before, rep, height, top, leftRoot, rightRoot);
        parent[rightRoot] := leftRoot;
        assert parent[..] == before[rightRoot := leftRoot];
        rep, height, top := Merged(rep, left, right), height', top';
      } else {
        assert Merged(rep, left, right) == rep;
      }
    }
  }
}
