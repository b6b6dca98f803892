/** Counting the pixels of polygons: first of every fragment, then pushed into the merged polygon. */
module SieveSizes {
  import opened Regions
  import opened Labelling
  import opened SieveSpec
  import opened SieveProof

  ghost function Carriers(rows: seq<seq<nat>>, id: nat): (S: set<Pixel>)
    ensures forall p :: p in S <==> Seen(rows, p) && IdAt(rows, p) == id
  {
    set p | p in SeenSet(rows) && IdAt(rows, p) == id
  }

  ghost predicate Counts(rows: seq<seq<nat>>, sizes: seq<int>) {
    forall id :: 0 <= id < |sizes| ==> sizes[id] == Saturated(|Carriers(rows, id)|)
  }

  lemma CarriersOfPixel(rows: seq<seq<nat>>, ids: seq<nat>, k: nat, id: nat)
    requires k < |ids|
    ensures |Carriers(rows + [ids[..k + 1]], id)|
         == |Carriers(rows + [ids[..k]], id)| + if ids[k] == id then 1 else 0
  {
    var p := Pixel(k, |rows|);
    assert ids[..k + 1] == ids[..k] + [ids[k]];
    SeenAfter(rows, ids[..k], ids[k]);
    var A, B := Carriers(rows + [ids[..k]], id), Carriers(rows + [ids[..k + 1]], id);
    assert B == if ids[k] == id then A + {p} else A;
  }

  // Ids that no pixel has yet.
  lemma NewIdsCarryNothing(rows: seq<seq<nat>>, sizes: seq<int>, n: nat)
    requires Counts(rows, sizes) && forall p :: Seen(rows, p) ==> IdAt(rows, p) < |sizes|
    ensures Counts(rows, sizes + seq(n, _ => 0))
  {
    assert forall id :: |sizes| <= id < |sizes| + n ==> Carriers(rows, id) == {};
  }

  // The pixels of polygon r that carry r itself or an id below n.
  ghost function Pushed(g: Polygons, w: nat, r: nat, n: nat): (S: set<Pixel>)
    requires GoodPolygons(g, w)
  {
    set p | p in Members(g, w, r) && (IdAt(g.rows, p) == r || IdAt(g.rows, p) < n)
  }

  lemma PushOne(g: Polygons, w: nat, r: nat, n: nat)
    requires GoodPolygons(g, w) && n < |g.map_|
    ensures |Pushed(g, w, r, n + 1)|
         == |Pushed(g, w, r, n)| + if g.map_[n] == r && n != r then |Carriers(g.rows, n)| else 0
  {
    var A, B := Pushed(g, w, r, n), Pushed(g, w, r, n + 1);
    if g.map_[n] == r && n != r {
      assert B == A + Carriers(g.rows, n) && A !! Carriers(g.rows, n);
    } else {
      assert B == A;
    }
  }

  ghost predicate PushedAt(g: Polygons, w: nat, sizes: seq<int>, n: nat, r: nat)
    requires GoodPolygons(g, w) && r < |sizes| == |g.map_|
  {
    sizes[r] == if g.map_[r] == r then Saturated(|Pushed(g, w, r, n)|)
                else if r < n then 0 else Saturated(|Carriers(g.rows, r)|)
  }

  // Fragments below n are pushed.
  ghost predicate PushedUpTo(g: Polygons, w: nat, sizes: seq<int>, n: nat)
    requires GoodPolygons(g, w)
  {
    |sizes| == |g.map_| && forall r :: 0 <= r < |sizes| ==> PushedAt(g, w, sizes, n, r)
  }

  function PushSize(map_: seq<nat>, sizes: seq<int>, n: nat): seq<int>
    requires n < |sizes| == |map_| && map_[n] < |sizes|
  {
    var root := map_[n];
    if root == n then sizes else sizes[root := Saturated(sizes[root] + sizes[n])][n := 0]
  }

  lemma PushKeeps(g: Polygons, w: nat, sizes: seq<int>, n: nat)
    requires GoodPolygons(g, w) && PushedUpTo(g, w, sizes, n) && n < |sizes|
    ensures PushedUpTo(g, w, PushSize(g.map_, sizes, n), n + 1)
  {
    var sizes', m := PushSize(g.map_, sizes, n), n + 1;
    assert PushedAt(g, w, sizes, n, n);
    forall r: nat | r < |sizes| ensures PushedAt(g, w, sizes', m, r) {
      assert PushedAt(g, w, sizes, n, r);
      if g.map_[r] == r {
        var pushed := |Pushed(g, w, r, n)|;
        PushOne(g, w, r, n);
        if g.map_[n] == r && n != r {
          var more := |Carriers(g.rows, n)|;
          assert sizes[n] == Saturated(more) && sizes[r] == Saturated(pushed);
        }
      }
    }
  }

  lemma PushStarts(g: Polygons, w: nat, sizes: seq<int>)
    requires GoodPolygons(g, w) && |sizes| == |g.map_| && Counts(g.rows, sizes)
    ensures PushedUpTo(g, w, sizes, 0)
  {
    forall r | 0 <= r < |sizes| ensures PushedAt(g, w, sizes, 0, r) {
      if g.map_[r] == r { assert Pushed(g, w, r, 0) == Carriers(g.rows, r); }
    }
  }

  lemma PushEnds(g: Polygons, w: nat, sizes: seq<int>)
    requires GoodPolygons(g, w) && PushedUpTo(g, w, sizes, |g.map_|)
    ensures SizesOf(g, w, sizes)
  {
    forall r | 0 <= r < |sizes|
      ensures sizes[r] == if g.map_[r] == r then Saturated(|Members(g, w, r)|) else 0
    {
      assert PushedAt(g, w, sizes, |g.map_|, r);
      forall p | p in Members(g, w, r) ensures p in Pushed(g, w, r, |g.map_|) {
        assert IdAt(g.rows, p) < |g.map_|;
      }
      assert Pushed(g, w, r, |g.map_|) == Members(g, w, r);
    }
  }

  // The first n fragments pushed, one after the other.
  ghost function PushAll(map_: seq<nat>, sizes: seq<int>, n: nat): (r: seq<int>)
    requires n <= |sizes| == |map_| && IsFlat(map_)
    ensures |r| == |sizes|
  {
    if n == 0 then sizes else PushSize(map_, PushAll(map_, sizes, n - 1), n - 1)
  }

  lemma {:induction false} PushAllKeeps(g: Polygons, w: nat, sizes: seq<int>, n: nat)
    requires GoodPolygons(g, w) && n <= |sizes| == |g.map_| && PushedUpTo(g, w, sizes, 0)
    ensures PushedUpTo(g, w, PushAll(g.map_, sizes, n), n)
  {
    if n > 0 {
      PushAllKeeps(g, w, sizes, n - 1);
      var before := PushAll(g.map_, sizes, n - 1);
      PushKeeps(g, w, before, n - 1);
      assert PushAll(g.map_, sizes, n) == PushSize(g.map_, before, n - 1);
    }
  }

  /** Pushing every fragment turns the counts of ids into the sizes of polygons. */
  lemma PushedSizes(g: Polygons, w: nat, sizes: seq<int>)
    requires GoodPolygons(g, w) && |sizes| == |g.map_| && Counts(g.rows, sizes)
    ensures SizesOf(g, w, PushAll(g.map_, sizes, |sizes|))
  {
    PushStarts(g, w, sizes);
    PushAllKeeps(g, w, sizes, |sizes|);
    PushEnds(g, w, PushAll(g.map_, sizes, |sizes|));
  }
}
