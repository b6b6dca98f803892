/** From the sizes and neighbours that the sieve's passes collect, to what its output means. */
module SieveProof {
  import opened Regions
  import opened Labelling
  import opened SieveSpec

  // The size recorded for every polygon is the number of its pixels; merged fragments have none left.
  ghost predicate SizesOf(g: Polygons, w: nat, sizes: seq<int>)
    requires GoodPolygons(g, w)
  {
    match g
    case Polygons(_, map_, _) =>
      && |sizes| == |map_|
      && forall r :: 0 <= r < |sizes| ==> sizes[r] == if map_[r] == r then Saturated(|Members(g, w, r)|) else 0
  }

  ghost predicate AllBest(conn: int, g: Polygons, w: nat, sizes: seq<int>, big: seq<int>)
    requires GoodPolygons(g, w)
  {
    BestSoFar(g, w, sizes, NeighbourPairs(conn, g.rows), big)
  }

  // Every polygon has one of its largest neighbours, as far as the pairs in E show them.
  ghost predicate BestSoFar(g: Polygons, w: nat, sizes: seq<int>, E: set<(Pixel, Pixel)>, big: seq<int>)
    requires GoodPolygons(g, w)
  {
    match g
    case Polygons(rows, map_, _) =>
      && |sizes| == |big| == |map_| && (forall e :: e in E ==> Seen(rows, e.0) && Seen(rows, e.1))
      && forall r :: 0 <= r < |big| ==> BestOf(g, w, sizes, E, big, r)
  }

  // Borders, in terms of polygons.
  lemma BorderIsRival(conn: int, img: Image, w: nat, p: Pixel, q: Pixel)
    requires IsImage(img, w) && InImage(img, p) && InImage(img, q) && At(img, p) != NODATA_MARKER
    ensures var g := PolygonsOf(conn, img, w);
      && (Borders(Scanned, conn, img, w, p, q) ==>
            exists p' :: (p', q) in NeighbourPairs(conn, g.rows) && Poly(g, w, p') == Poly(g, w, p)
                         && Rival(g, Poly(g, w, p), Poly(g, w, q)))
      && (forall p' ::
            (p', q) in NeighbourPairs(conn, g.rows) && Poly(g, w, p') == Poly(g, w, p) && Rival(g, Poly(g, w, p), Poly(g, w, q))
            ==> Borders(Scanned, conn, img, w, p, q))
  {
    var g := PolygonsOf(conn, img, w);
    PolygonIsRegion(conn, img, w, p);
    PolygonValue(conn, img, w, p);
    PolygonValue(conn, img, w, q);
    if Borders(Scanned, conn, img, w, p, q) {
      var p' :| p' in Region(Scanned, conn, img, w, p) && Neighbours(conn, p', q);
      assert p' in Members(g, w, Poly(g, w, p));
      assert (p', q) in NeighbourPairs(conn, g.rows);
    }
    forall p' | (p', q) in NeighbourPairs(conn, g.rows) && Poly(g, w, p') == Poly(g, w, p)
                && Rival(g, Poly(g, w, p), Poly(g, w, q))
      ensures Borders(Scanned, conn, img, w, p, q)
    {
      assert p' in Members(g, w, Poly(g, w, p)) && q !in Members(g, w, Poly(g, w, p));
    }
  }

  lemma PolygonSize(conn: int, img: Image, w: nat, sizes: seq<int>, q: Pixel)
    requires IsImage(img, w) && InImage(img, q) && SizesOf(PolygonsOf(conn, img, w), w, sizes)
    ensures sizes[Poly(PolygonsOf(conn, img, w), w, q)] == RegionSize(Scanned, conn, img, w, q)
  {
    PolygonIsRegion(conn, img, w, q);
  }

  // Every polygon has no neighbour or an existing one.
  predicate InRange(big: seq<int>) {
    forall r :: 0 <= r < |big| ==> -1 <= big[r] < |big|
  }

  // What the third pass writes at a pixel.
  ghost function Written(src: Image, g: Polygons, w: nat, sizes: seq<int>, big: seq<int>, threshold: int, p: Pixel): int
    requires GoodPolygons(g, w) && |sizes| == |big| == |g.map_| && Seen(g.rows, p) && InImage(src, p)
    requires InRange(big)
  {
    var target := TargetOf(g, sizes, big, threshold, Poly(g, w, p));
    if target != -1 then g.value[target] else At(src, p)
  }

  /** The three passes together sieve every pixel as specified. */
  lemma WrittenIsSieved(conn: int, src: Image, img: Image, w: nat, sizes: seq<int>, big: seq<int>, threshold: int, p: Pixel)
    requires IsImage(img, w) && IsImage(src, w) && |src| == |img| && InImage(img, p)
    requires SizesOf(PolygonsOf(conn, img, w), w, sizes) && |big| == |sizes|
    requires AllBest(conn, PolygonsOf(conn, img, w), w, sizes, big) && InRange(big)
    ensures SievedTo(Scanned, conn, src, img, w, threshold, p,
                     Written(src, PolygonsOf(conn, img, w), w, sizes, big, threshold, p))
  {
    var g := PolygonsOf(conn, img, w);
    var r := Poly(g, w, p);
    PolygonValue(conn, img, w, p);
    PolygonSize(conn, img, w, sizes, p);
    assert BestOf(g, w, sizes, NeighbourPairs(conn, g.rows), big, r);
    if At(img, p) != NODATA_MARKER {
      forall q | Borders(Scanned, conn, img, w, p, q)
        ensures big[r] != -1 && RegionSize(Scanned, conn, img, w, q) <= sizes[big[r]]
      {
        BorderIsRival(conn, img, w, p, q);
        var p' :| (p', q) in NeighbourPairs(conn, g.rows) && Poly(g, w, p') == r && Rival(g, r, Poly(g, w, q));
        var e := (p', q);
        assert Poly(g, w, e.0) == r;
        PolygonSize(conn, img, w, sizes, q);
      }
      if big[r] != -1 {
        var e :| e in NeighbourPairs(conn, g.rows) && Poly(g, w, e.0) == r && Poly(g, w, e.1) == big[r] && Rival(g, r, big[r]);
        var q := e.1;
        assert (e.0, q) in NeighbourPairs(conn, g.rows);
        BorderIsRival(conn, img, w, p, q);
        PolygonSize(conn, img, w, sizes, q);
        PolygonValue(conn, img, w, q);
        assert LargestBorder(Scanned, conn, img, w, p, q);
      }
    }
  }

  // With connectedness 4 the regions are the 4-connected ones.
  lemma FourRegion(img: Image, w: nat, p: Pixel)
    requires IsImage(img, w)
    ensures Region(Scanned, 4, img, w, p) == Region(Four, 4, img, w, p)
  {
    forall q | q in Pixels(img, w)
      ensures q in Region(Scanned, 4, img, w, p) <==> q in Region(Four, 4, img, w, p)
    {
      ScannedBetween(ExactRule(4), img, w, p, q);
    }
  }

  lemma FourBorders(img: Image, w: nat, p: Pixel)
    requires IsImage(img, w)
    ensures forall q :: Borders(Scanned, 4, img, w, p, q) <==> Borders(Four, 4, img, w, p, q)
    ensures forall q :: LargestBorder(Scanned, 4, img, w, p, q) <==> LargestBorder(Four, 4, img, w, p, q)
    ensures forall q :: RegionSize(Scanned, 4, img, w, q) == RegionSize(Four, 4, img, w, q)
  {
    FourRegion(img, w, p);
    forall q ensures RegionSize(Scanned, 4, img, w, q) == RegionSize(Four, 4, img, w, q) {
      FourRegion(img, w, q);
    }
    forall q ensures Borders(Scanned, 4, img, w, p, q) <==> Borders(Four, 4, img, w, p, q) {
    }
  }

  /** With connectedness 4 the sieve works on the 4-connected regions of equal pixels. */
  lemma SievedFour(src: Image, img: Image, w: nat, threshold: int, p: Pixel, v: int)
    requires IsImage(img, w) && InImage(src, p)
    ensures SievedTo(Scanned, 4, src, img, w, threshold, p, v) <==> SievedTo(Four, 4, src, img, w, threshold, p, v)
  {
    FourBorders(img, w, p);
  }

  // What is written at a pixel, given the polygon that each polygon is merged into.
  ghost function Merged(src: Image, g: Polygons, w: nat, target: seq<int>, p: Pixel): int
    requires GoodPolygons(g, w) && Seen(g.rows, p) && InImage(src, p)
    requires |target| == |g.map_| && InRange(target)
  {
    var t := target[Poly(g, w, p)];
    if t != -1 then g.value[t] else At(src, p)
  }

  ghost predicate MergedLines(src: Image, g: Polygons, w: nat, target: seq<int>, dst: Image, y: nat)
    requires GoodPolygons(g, w) && IsImage(src, w) && |src| == |g.rows|
    requires |target| == |g.map_| && InRange(target)
  {
    && IsImage(dst, w) && |dst| == y <= |src|
    && forall p :: InImage(dst, p) ==> At(dst, p) == Merged(src, g, w, target, p)
  }

  lemma MergedNext(src: Image, g: Polygons, w: nat, target: seq<int>, dst: Image, line: seq<int>)
    requires GoodPolygons(g, w) && IsImage(src, w) && |src| == |g.rows|
    requires |target| == |g.map_| && InRange(target)
    requires MergedLines(src, g, w, target, dst, |dst|) && |dst| < |src| && |line| == w
    requires forall x :: 0 <= x < w ==> line[x] == Merged(src, g, w, target, Pixel(x, |dst|))
    ensures MergedLines(src, g, w, target, dst + [line], |dst| + 1)
  {
    forall p | InImage(dst + [line], p) ensures At(dst + [line], p) == Merged(src, g, w, target, p) {
      if p.y == |dst| {
        assert p == Pixel(p.x, |dst|);
      } else {
        assert InImage(dst, p);
      }
    }
  }

  // The sieved output, pixel by pixel.
  lemma OutputIsSieved(conn: int, src: Image, img: Image, w: nat, sizes: seq<int>, big: seq<int>, target: seq<int>,
                       threshold: int, dst: Image)
    requires IsImage(img, w) && IsImage(src, w) && |src| == |img|
    requires var g := PolygonsOf(conn, img, w);
      && SizesOf(g, w, sizes) && AllBest(conn, g, w, sizes, big) && |target| == |big| == |sizes|
      && InRange(big) && InRange(target)
      && (forall r :: 0 <= r < |target| ==> target[r] == TargetOf(g, sizes, big, threshold, r))
      && MergedLines(src, g, w, target, dst, |src|)
    ensures forall p :: InImage(src, p) ==> SievedTo(Scanned, conn, src, img, w, threshold, p, At(dst, p))
    ensures conn == 4 ==> forall p :: InImage(src, p) ==> SievedTo(Four, 4, src, img, w, threshold, p, At(dst, p))
  {
    forall p | InImage(src, p)
      ensures SievedTo(Scanned, conn, src, img, w, threshold, p, At(dst, p))
      ensures conn == 4 ==> SievedTo(Four, 4, src, img, w, threshold, p, At(dst, p))
    {
      assert At(dst, p) == Written(src, PolygonsOf(conn, img, w), w, sizes, big, threshold, p);
      WrittenIsSieved(conn, src, img, w, sizes, big, threshold, p);
      if conn == 4 { SievedFour(src, img, w, threshold, p, At(dst, p)); }
    }
  }
}
