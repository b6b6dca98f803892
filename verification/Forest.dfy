/** The polygon id map as a forest: every id points at another id or at itself.

    An id that points at itself is a root, and two ids belong to the same polygon
    when following the map from them ends at the same root. */
module Forest {

  // Every id is a valid index, and the depth drops along every link that is not a root's.
  ghost predicate DepthOf(p: seq<nat>, depth: seq<nat>) {
    && |depth| == |p|
    && (forall i :: 0 <= i < |p| ==> p[i] < |p|)
    && (forall i :: 0 <= i < |p| && p[i] != i ==> depth[p[i]] < depth[i])
  }

  // The map has no cycle but the self loops of its roots.
  ghost predicate IsForest(p: seq<nat>) {
    exists depth :: DepthOf(p, depth)
  }

  ghost function Depth(p: seq<nat>): (depth: seq<nat>)
    requires IsForest(p)
    ensures DepthOf(p, depth)
  {
    var depth :| DepthOf(p, depth);
    depth
  }

  ghost function Root(p: seq<nat>, i: nat): (r: nat)
    requires IsForest(p) && i < |p|
    ensures r < |p| && p[r] == r
    decreases Depth(p)[i]
  {
    if p[i] == i then i else Root(p, p[i])
  }

  /** Joining two polygons: the root of src is made to point at the root of dst. */
  ghost function Join(p: seq<nat>, src: nat, dst: nat): (q: seq<nat>)
    requires IsForest(p) && src < |p| && dst < |p|
    ensures |q| == |p|
  {
    p[Root(p, src) := Root(p, dst)]
  }

  // Joining keeps the map a forest.
  lemma JoinIsForest(p: seq<nat>, src: nat, dst: nat)
    requires IsForest(p) && src < |p| && dst < |p|
    ensures IsForest(Join(p, src, dst))
  {
    var d, rs, rd := Depth(p), Root(p, src), Root(p, dst);
    if rs != rd {
      var depth := seq(|p|, i requires 0 <= i < |p| => if Root(p, i) == rs then d[i] + d[rd] + 1 else d[i]);
      assert DepthOf(Join(p, src, dst), depth);
    } else {
      assert Join(p, src, dst) == p;
    }
  }

  // Joining moves every id below the root of src under the root of dst, and no other id.
  lemma {:induction false} JoinRoot(p: seq<nat>, src: nat, dst: nat, i: nat)
    requires IsForest(p) && src < |p| && dst < |p| && i < |p|
    requires IsForest(Join(p, src, dst))
    ensures Root(Join(p, src, dst), i)
         == if Root(p, i) == Root(p, src) then Root(p, dst) else Root(p, i)
    decreases Depth(p)[i]
  {
    var q := Join(p, src, dst);
    if p[i] != i {
      JoinRoot(p, src, dst, p[i]);
    } else if Root(p, src) != Root(p, dst) && i == Root(p, src) {
      assert q[i] == Root(p, dst);
      assert q[Root(p, dst)] == Root(p, dst);
    }
  }

  /** Joining unites exactly the two classes of src and dst. */
  lemma JoinUnites(p: seq<nat>, src: nat, dst: nat)
    requires IsForest(p) && src < |p| && dst < |p|
    ensures IsForest(Join(p, src, dst))
    ensures var q := Join(p, src, dst);
      forall i, j :: 0 <= i < |p| && 0 <= j < |p| ==>
        (Root(q, i) == Root(q, j)
         <==> || Root(p, i) == Root(p, j)
              || (Root(p, i) == Root(p, src) && Root(p, j) == Root(p, dst))
              || (Root(p, i) == Root(p, dst) && Root(p, j) == Root(p, src)))
  {
    JoinIsForest(p, src, dst);
    forall i: nat | i < |p|
      ensures Root(Join(p, src, dst), i)
           == if Root(p, i) == Root(p, src) then Root(p, dst) else Root(p, i)
    {
      JoinRoot(p, src, dst, i);
    }
  }

  /** A new id starts out as its own root and disturbs no other id. */
  lemma ExtendRoot(p: seq<nat>)
    requires IsForest(p)
    ensures IsForest(p + [|p|])
    ensures Root(p + [|p|], |p|) == |p|
    ensures forall i :: 0 <= i < |p| ==> Root(p + [|p|], i) == Root(p, i)
  {
    var q := p + [|p|];
    assert DepthOf(q, Depth(p) + [0]);
    forall i: nat | i < |p| ensures Root(q, i) == Root(p, i) {
      ExtendRootAt(p, i);
    }
  }

  lemma {:induction false} ExtendRootAt(p: seq<nat>, i: nat)
    requires IsForest(p) && i < |p| && IsForest(p + [|p|])
    ensures Root(p + [|p|], i) == Root(p, i)
    decreases Depth(p)[i]
  {
    if p[i] != i { ExtendRootAt(p, p[i]); }
  }

  /** Replacing a link by the link two steps up keeps every root, and shortens the path. */
  lemma HalveKeepsRoots(p: seq<nat>, d: seq<nat>, i: nat)
    requires IsForest(p) && DepthOf(p, d) && i < |p|
    ensures p[p[i]] < |p| && DepthOf(p[i := p[p[i]]], d) && IsForest(p[i := p[p[i]]])
    ensures p[i] != p[p[i]] ==> d[p[p[i]]] < d[p[i]]
    ensures forall j :: 0 <= j < |p| ==> Root(p[i := p[p[i]]], j) == Root(p, j)
  {
    var q := p[i := p[p[i]]];
    assert DepthOf(q, d);
    forall j: nat | j < |p| ensures Root(q, j) == Root(p, j) {
      HalveRootAt(p, i, j);
    }
  }

  lemma {:induction false} HalveRootAt(p: seq<nat>, i: nat, j: nat)
    requires IsForest(p) && i < |p| && j < |p|
    requires p[p[i]] < |p| && IsForest(p[i := p[p[i]]])
    ensures Root(p[i := p[p[i]]], j) == Root(p, j)
    decreases Depth(p)[j]
  {
    var q := p[i := p[p[i]]];
    if p[j] != j {
      HalveRootAt(p, i, p[j]);
      if j == i && p[p[i]] != p[i] {
        HalveRootAt(p, i, p[p[i]]);
      }
    }
  }

  // Every id points straight at a root, and the root is the one it had in p.
  ghost predicate Flattens(p: seq<nat>, q: seq<nat>)
    requires IsForest(p)
  {
    |q| == |p| && forall i :: 0 <= i < |p| ==> q[i] == Root(p, i)
  }

  ghost function Flat(p: seq<nat>): (q: seq<nat>)
    requires IsForest(p)
    ensures Flattens(p, q)
  {
    seq(|p|, i requires 0 <= i < |p| => Root(p, i))
  }
}
