/** What the sieve filter is meant to do, on the regions of the masked image. */
module SieveSpec {
  import opened Common
  import opened Forest
  import opened Regions
  import opened Labelling

  const NODATA_MARKER: int := -51502112
  const MY_MAX_INT: int := 2147483647

  // Sizes saturate at the largest 32-bit integer.
  function Saturated(n: int): int { if n > MY_MAX_INT then MY_MAX_INT else n }

  // The sieve always compares values exactly.
  function ExactRule(connectedness: int): Rule { Rule(connectedness, 0) }

  type Mask = Option<seq<seq<bool>>>

  ghost predicate GoodInput(src: Image, mask: Mask, w: nat) {
    match mask
    case None => IsImage(src, w)
    case Some(m) => IsImage(src, w) && |m| == |src| && forall y :: 0 <= y < |m| ==> |m[y]| == w
  }

  /** A line with the nodata marker in place of every pixel that the mask takes out. */
  ghost function MaskedLine(src: Image, mask: Mask, w: nat, y: nat): (line: seq<int>)
    requires GoodInput(src, mask, w) && y < |src|
  {
    seq(w, x requires 0 <= x < w => if mask.Some? && !mask.value[y][x] then NODATA_MARKER else src[y][x])
  }

  ghost function Masked(src: Image, mask: Mask, w: nat): (img: Image)
    requires GoodInput(src, mask, w)
    ensures IsImage(img, w) && |img| == |src|
  {
    seq(|src|, y requires 0 <= y < |src| => MaskedLine(src, mask, w, y))
  }

  /** Masking takes out exactly the pixels that the mask names: no output pixel of them changes. */
  lemma MaskedStays(src: Image, mask: Mask, w: nat, adj: Adjacency, conn: int, threshold: int, p: Pixel, v: int)
    requires GoodInput(src, mask, w) && InImage(src, p) && SievedTo(adj, conn, src, Masked(src, mask, w), w, threshold, p, v)
    ensures mask.Some? && !mask.value[p.y][p.x] ==> v == At(src, p)
    ensures mask.None? || mask.value[p.y][p.x] ==> At(Masked(src, mask, w), p) == At(src, p)
  {
    assert Masked(src, mask, w)[p.y] == MaskedLine(src, mask, w, p.y);
  }

  /** Pixels that the second pass compares. */
  predicate Neighbours(connectedness: int, p: Pixel, q: Pixel) {
    || Abs(p.x - q.x) + Abs(p.y - q.y) == 1
    || (connectedness == 8 && Abs(p.x - q.x) == 1 && Abs(p.y - q.y) == 1)
  }

  /** Pixels that are compared are those that would be joined if their values were equal, by sides, or
      with connectedness 8 also at corners. */
  lemma NeighboursTouch(rule: Rule, img: Image, w: nat, p: Pixel, q: Pixel)
    requires IsImage(img, w) && InImage(img, p) && InImage(img, q) && rule.Same(At(img, p), At(img, q))
    ensures Neighbours(4, p, q) <==> Adjacent(Four, rule, img, w, p, q)
    ensures Neighbours(8, p, q) <==> p != q && Adjacent(Eight, rule, img, w, p, q)
  {
  }

  // ----- regions of pixels

  ghost function Region(adj: Adjacency, conn: int, img: Image, w: nat, p: Pixel): (S: set<Pixel>)
    requires IsImage(img, w)
    ensures forall q :: q in S ==> InImage(img, q)
  {
    set q | q in Pixels(img, w) && Connected(adj, ExactRule(conn), img, w, p, q)
  }

  ghost function RegionSize(adj: Adjacency, conn: int, img: Image, w: nat, p: Pixel): int
    requires IsImage(img, w)
  {
    Saturated(|Region(adj, conn, img, w, p)|)
  }

  lemma {:induction false} PixelsOfLines(img: Image, w: nat, n: nat) returns (S: set<Pixel>)
    requires IsImage(img, w) && n <= |img|
    ensures |S| == n * w && forall p :: p in S <==> InImage(img, p) && p.y < n
  {
    if n == 0 {
      S := {};
    } else {
      var T := PixelsOfLines(img, w, n - 1);
      var L := PixelsOfLine(n - 1, w);
      assert T !! L;
      S := T + L;
      assert |S| == |T| + |L|;
      OneLineOfPixels(n, w);
    }
  }

  lemma OneLineOfPixels(n: nat, w: nat)
    requires n > 0
    ensures (n - 1) * w + w == n * w
  {
  }

  lemma {:induction false} PixelsOfLine(y: nat, k: nat) returns (S: set<Pixel>)
    ensures |S| == k && forall p :: p in S <==> p.y == y && 0 <= p.x < k
  {
    if k == 0 {
      S := {};
    } else {
      var T := PixelsOfLine(y, k - 1);
      S := T + {Pixel(k - 1, y)};
    }
  }

  lemma {:induction false} NotLarger(a: set<Pixel>, b: set<Pixel>)
    requires a <= b
    ensures |a| <= |b|
    decreases a
  {
    if x :| x in a { NotLarger(a - {x}, b - {x}); }
  }

  /** In an image of less than 2^31 pixels nothing saturates: the size of a region is the number of
      its pixels. */
  lemma SizesAreExact(adj: Adjacency, conn: int, img: Image, w: nat, p: Pixel)
    requires IsImage(img, w) && |img| * w < 0x8000_0000
    ensures RegionSize(adj, conn, img, w, p) == |Region(adj, conn, img, w, p)|
  {
    var S := PixelsOfLines(img, w, |img|);
    NotLarger(Region(adj, conn, img, w, p), S);
  }

  // Pixel q lies outside the region of p, in a region with data that touches it.
  ghost predicate Borders(adj: Adjacency, conn: int, img: Image, w: nat, p: Pixel, q: Pixel)
    requires IsImage(img, w)
  {
    && InImage(img, q) && At(img, q) != NODATA_MARKER && q !in Region(adj, conn, img, w, p)
    && exists p' :: p' in Region(adj, conn, img, w, p) && Neighbours(conn, p', q)
  }

  // The region of q is a largest one among those bordering the region of p.
  ghost predicate LargestBorder(adj: Adjacency, conn: int, img: Image, w: nat, p: Pixel, q: Pixel)
    requires IsImage(img, w)
  {
    && Borders(adj, conn, img, w, p, q)
    && forall q' :: Borders(adj, conn, img, w, p, q') ==>
         RegionSize(adj, conn, img, w, q') <= RegionSize(adj, conn, img, w, q)
  }

  ghost predicate IsSieved(adj: Adjacency, conn: int, img: Image, w: nat, threshold: int, p: Pixel)
    requires IsImage(img, w)
  {
    && InImage(img, p) && At(img, p) != NODATA_MARKER && RegionSize(adj, conn, img, w, p) < threshold
    && exists q :: Borders(adj, conn, img, w, p, q) && RegionSize(adj, conn, img, w, q) >= threshold
  }

  /** The output pixel v at p: the value of a largest bordering region when the region of p is
      below the threshold and some bordering region is not, and the input value otherwise. */
  ghost predicate SievedTo(adj: Adjacency, conn: int, src: Image, img: Image, w: nat, threshold: int, p: Pixel, v: int)
    requires IsImage(img, w) && InImage(src, p)
  {
    if IsSieved(adj, conn, img, w, threshold, p)
    then exists q :: LargestBorder(adj, conn, img, w, p, q) && v == At(img, q)
    else v == At(src, p)
  }

  // ----- the same on polygon ids

  // The map flattened, and the value of every id.
  datatype Polygons = Polygons(rows: seq<seq<nat>>, map_: seq<nat>, value: seq<int>)

  // Every id of a line is a polygon id.
  ghost predicate LineOf(ids: seq<nat>, w: nat, n: nat) {
    |ids| == w && forall x :: 0 <= x < w ==> ids[x] < n
  }

  // Every id points straight at a root.
  ghost predicate IsFlat(map_: seq<nat>) {
    forall i :: 0 <= i < |map_| ==> map_[i] < |map_| && map_[map_[i]] == map_[i]
  }

  ghost predicate GoodPolygons(g: Polygons, w: nat) {
    match g
    case Polygons(rows, map_, value) =>
      && |map_| == |value| && IsFlat(map_)
      && forall y :: 0 <= y < |rows| ==> LineOf(rows[y], w, |map_|)
  }

  ghost function PolygonsOf(conn: int, img: Image, w: nat): (g: Polygons)
    requires IsImage(img, w)
    ensures |g.rows| == |img| && GoodPolygons(g, w)
  {
    var s := ScanImage(ExactRule(conn), img, w, |img|);
    Polygons(s.rows, Flat(s.labels.parent), s.labels.value)
  }

  ghost function Poly(g: Polygons, w: nat, p: Pixel): (r: nat)
    requires GoodPolygons(g, w) && Seen(g.rows, p)
    ensures r < |g.map_| && g.map_[r] == r
  {
    g.map_[IdAt(g.rows, p)]
  }

  // The pixels of a polygon.
  ghost function Members(g: Polygons, w: nat, r: nat): (S: set<Pixel>)
    requires GoodPolygons(g, w)
    ensures forall p :: p in S <==> Seen(g.rows, p) && Poly(g, w, p) == r
  {
    var S := set x, y | 0 <= y < |g.rows| && 0 <= x < |g.rows[y]| && Poly(g, w, Pixel(x, y)) == r :: Pixel(x, y);
    assert forall p :: Seen(g.rows, p) ==> p == Pixel(p.x, p.y);
    S
  }

  // Polygon b touches polygon a, and both carry data.
  predicate Rival(g: Polygons, a: nat, b: nat)
    requires a < |g.value| && b < |g.value|
  {
    a != b && g.value[a] != NODATA_MARKER && g.value[b] != NODATA_MARKER
  }

  /** After comparing the pairs of pixels in E, big holds for every polygon one of the largest
      polygons that E shows next to it, or -1. */
  ghost predicate BestOf(g: Polygons, w: nat, sizes: seq<int>, E: set<(Pixel, Pixel)>, big: seq<int>, r: nat)
    requires GoodPolygons(g, w) && |sizes| == |big| == |g.map_| && r < |big|
    requires forall e :: e in E ==> Seen(g.rows, e.0) && Seen(g.rows, e.1)
  {
    && -1 <= big[r] < |big|
    && (big[r] != -1 ==> exists e :: e in E && Poly(g, w, e.0) == r && Poly(g, w, e.1) == big[r] && Rival(g, r, big[r]))
    && (forall e :: e in E && Poly(g, w, e.0) == r && Rival(g, r, Poly(g, w, e.1)) ==>
          big[r] != -1 && sizes[Poly(g, w, e.1)] <= sizes[big[r]])
  }

  // The pairs of neighbouring pixels of an image.
  ghost function NeighbourPairs(conn: int, rows: seq<seq<nat>>): (E: set<(Pixel, Pixel)>)
    ensures forall p, q :: (p, q) in E <==> Seen(rows, p) && Seen(rows, q) && Neighbours(conn, p, q)
  {
    var S := SeenSet(rows);
    set p, q | p in S && q in S && Neighbours(conn, p, q) :: (p, q)
  }

  ghost function SeenSet(rows: seq<seq<nat>>): (S: set<Pixel>)
    ensures forall p :: p in S <==> Seen(rows, p)
  {
    var S := set x, y | 0 <= y < |rows| && 0 <= x < |rows[y]| :: Pixel(x, y);
    assert forall p :: Seen(rows, p) ==> p == Pixel(p.x, p.y);
    S
  }

  /** What is left of the neighbours once the threshold is applied. */
  function TargetOf(g: Polygons, sizes: seq<int>, big: seq<int>, threshold: int, r: nat): int
    requires |sizes| == |big| == |g.map_| == |g.value| && r < |big| && -1 <= big[r] < |big|
  {
    if g.map_[r] == r && g.value[r] != NODATA_MARKER
       && (sizes[r] >= threshold || (big[r] != -1 && sizes[big[r]] < threshold))
    then -1 else big[r]
  }

  // ----- ids against regions

  // A polygon is the region of each of its pixels.
  lemma PolygonIsRegion(conn: int, img: Image, w: nat, p: Pixel)
    requires IsImage(img, w) && InImage(img, p)
    ensures Members(PolygonsOf(conn, img, w), w, Poly(PolygonsOf(conn, img, w), w, p))
         == Region(Scanned, conn, img, w, p)
  {
    var g := PolygonsOf(conn, img, w);
    forall q | InImage(img, q)
      ensures q in Members(g, w, Poly(g, w, p)) <==> q in Region(Scanned, conn, img, w, p)
    {
      PolygonsAreScannedRegions(ExactRule(conn), img, w, p, q);
    }
  }

  // Connected pixels have equal values.
  lemma RegionHasOneValue(conn: int, img: Image, w: nat, p: Pixel, q: Pixel)
    requires IsImage(img, w) && InImage(img, p) && Connected(Scanned, ExactRule(conn), img, w, p, q)
    ensures InImage(img, q) && At(img, q) == At(img, p)
  {
    ScannedBetween(ExactRule(conn), img, w, p, q);
    var path :| IsPath(Eight, ExactRule(conn), img, w, path, p, q);
    var S := set a | a in Pixels(img, w) && At(img, a) == At(img, p);
    PathKeeps(Eight, ExactRule(conn), img, w, path, p, q, S);
  }

  // The value recorded for a polygon is the value of its pixels.
  lemma PolygonValue(conn: int, img: Image, w: nat, p: Pixel)
    requires IsImage(img, w) && InImage(img, p)
    ensures var g := PolygonsOf(conn, img, w); g.value[Poly(g, w, p)] == At(img, p)
  {
    var rule := ExactRule(conn);
    var g := PolygonsOf(conn, img, w);
    var s := ScanImage(rule, img, w, |img|);
    ImageLabelled(rule, img, w, |img|);
    var r := Poly(g, w, p);
    assert Carried(img, s.rows, s.labels, r);
    var q :| Witness(img, s.rows, s.labels, r, q);
    assert Poly(g, w, q) == r;
    PolygonsAreScannedRegions(rule, img, w, p, q);
    RegionHasOneValue(conn, img, w, p, q);
  }
}
