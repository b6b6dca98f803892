/** Finding a largest neighbour of every polygon, one pair of neighbouring pixels at a time. */
module SieveNeighbours {
  import opened Regions
  import opened Labelling
  import opened SieveSpec
  import opened SieveProof

  // One more candidate for the largest neighbour of polygon a.
  ghost function Better(sizes: seq<int>, big: seq<int>, a: nat, b: nat): seq<int>
    requires a < |big| && b < |sizes| == |big| && -1 <= big[a] < |sizes|
  {
    if big[a] == -1 || sizes[big[a]] < sizes[b] then big[a := b] else big
  }

  lemma BetterKeepsBest(g: Polygons, w: nat, sizes: seq<int>, E: set<(Pixel, Pixel)>, big: seq<int>, p: Pixel, q: Pixel)
    requires GoodPolygons(g, w) && BestSoFar(g, w, sizes, E, big) && Seen(g.rows, p) && Seen(g.rows, q)
    ensures var a, b := Poly(g, w, p), Poly(g, w, q);
      && BestOf(g, w, sizes, E, big, a)
      && BestSoFar(g, w, sizes, E + {(p, q)}, if Rival(g, a, b) then Better(sizes, big, a, b) else big)
  {
    var a, b := Poly(g, w, p), Poly(g, w, q);
    assert BestOf(g, w, sizes, E, big, a);
    var big' := if Rival(g, a, b) then Better(sizes, big, a, b) else big;
    var E' := E + {(p, q)};
    forall r | 0 <= r < |big'| ensures BestOf(g, w, sizes, E', big', r) {
      assert BestOf(g, w, sizes, E, big, r);
      assert (p, q) in E';
      if r == a && big' != big {
        var e := (p, q);
        assert e in E' && Poly(g, w, e.0) == a && Poly(g, w, e.1) == big'[a];
      }
    }
  }

  ghost function Both(p: Pixel, q: Pixel): set<(Pixel, Pixel)> { {(p, q), (q, p)} }

  // The pairs that pixel b makes with the neighbours scanned before it.
  ghost function PairsOf(conn: int, w: nat, b: Pixel): set<(Pixel, Pixel)> {
    (if b.y > 0 then Both(b, Pixel(b.x, b.y - 1)) else {})
    + (if b.y > 0 && b.x > 0 && conn == 8 then Both(b, Pixel(b.x - 1, b.y - 1)) else {})
    + (if b.y > 0 && b.x < w - 1 && conn == 8 then Both(b, Pixel(b.x + 1, b.y - 1)) else {})
    + (if b.x > 0 then Both(b, Pixel(b.x - 1, b.y)) else {})
  }

  // The neighbours of b among the pixels scanned before it.
  lemma PairsOfEarlier(conn: int, w: nat, b: Pixel, q: Pixel)
    requires 0 <= b.x < w && 0 <= b.y && 0 <= q.x < w && 0 <= q.y && (q.y < b.y || (q.y == b.y && q.x < b.x))
    ensures (b, q) in PairsOf(conn, w, b) <==> Neighbours(conn, b, q)
    ensures (q, b) in PairsOf(conn, w, b) <==> Neighbours(conn, q, b)
  {
  }

  lemma PairsOfOnly(conn: int, w: nat, b: Pixel, e: (Pixel, Pixel))
    requires 0 <= b.x < w && 0 <= b.y && e in PairsOf(conn, w, b)
    ensures e.0 == b || e.1 == b
    ensures var q := if e.0 == b then e.1 else e.0;
            0 <= q.x < w && 0 <= q.y && (q.y < b.y || (q.y == b.y && q.x < b.x))
  {
  }

  // All neighbouring pairs are met when each pixel is paired with those before it.
  lemma PairsGrow(conn: int, w: nat, rows: seq<seq<nat>>, ids: seq<nat>, k: nat)
    requires k < |ids| == w && forall y :: 0 <= y < |rows| ==> |rows[y]| == w
    ensures NeighbourPairs(conn, rows + [ids[..k + 1]])
         == NeighbourPairs(conn, rows + [ids[..k]]) + PairsOf(conn, w, Pixel(k, |rows|))
  {
    assert ids[..k + 1] == ids[..k] + [ids[k]];
    SeenAfter(rows, ids[..k], ids[k]);
    var b, R, R' := Pixel(k, |rows|), rows + [ids[..k]], rows + [ids[..k + 1]];
    assert forall p :: Seen(R, p) <==> 0 <= p.x < w && 0 <= p.y && (p.y < |rows| || (p.y == |rows| && p.x < k));
    var A, B, C := NeighbourPairs(conn, R), NeighbourPairs(conn, R'), PairsOf(conn, w, b);
    forall e: (Pixel, Pixel) ensures e in B <==> e in A + C {
      var p, q := e.0, e.1;
      assert e == (p, q);
      if e in C { PairsOfOnly(conn, w, b, e); }
      if p == b && Seen(R, q) {
        PairsOfEarlier(conn, w, b, q);
      } else if q == b && Seen(R, p) {
        PairsOfEarlier(conn, w, b, p);
      }
    }
  }

  // Before any comparison no polygon has a neighbour.
  lemma NothingCompared(conn: int, g: Polygons, w: nat, sizes: seq<int>, big: seq<int>)
    requires GoodPolygons(g, w) && |sizes| == |big| == |g.map_| && forall r :: 0 <= r < |big| ==> big[r] == -1
    ensures BestSoFar(g, w, sizes, NeighbourPairs(conn, g.rows[..0]), big)
  {
    assert NeighbourPairs(conn, g.rows[..0]) == {};
  }

  lemma BestInRange(g: Polygons, w: nat, sizes: seq<int>, E: set<(Pixel, Pixel)>, big: seq<int>)
    requires GoodPolygons(g, w) && BestSoFar(g, w, sizes, E, big)
    ensures |big| == |sizes| == |g.map_| && InRange(big)
  {
    forall r | 0 <= r < |big| ensures -1 <= big[r] < |big| {
      assert BestOf(g, w, sizes, E, big, r);
    }
  }
}
