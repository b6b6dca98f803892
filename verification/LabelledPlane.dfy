/** The polygons of the enumerator as a plane, and why their rows have no gaps. */
module LabelledPlane {
  import opened Regions
  import opened Labelling
  import opened Borders

  /** The final polygon of every pixel. */
  ghost function PlaneOf(rule: Rule, img: Image, w: nat): (g: Plane)
    requires IsImage(img, w)
  {
    seq(|img|, y requires 0 <= y < |img| => seq(w, x requires 0 <= x < w => PolygonOf(rule, img, w, Pixel(x, y))))
  }

  lemma PlaneShape(rule: Rule, img: Image, w: nat)
    requires IsImage(img, w)
    ensures |PlaneOf(rule, img, w)| == |img|
    ensures forall y :: 0 <= y < |img| ==> |PlaneOf(rule, img, w)[y]| == w
  {
  }

  lemma PlaneAt(rule: Rule, img: Image, w: nat, p: Pixel)
    requires IsImage(img, w) && InImage(img, p)
    ensures PolyAt(PlaneOf(rule, img, w), p.x, p.y) == PolygonOf(rule, img, w, p)
  {
  }

  // A pixel of polygon k has this value.
  ghost predicate ShowsValue(rule: Rule, img: Image, w: nat, k: nat, v: int)
    requires IsImage(img, w)
  {
    exists p :: InImage(img, p) && PolygonOf(rule, img, w, p) == k && At(img, p) == v
  }

  /** The value kept for a polygon is that of one of its pixels. */
  lemma ValueIsShown(rule: Rule, img: Image, w: nat, k: nat)
    requires IsImage(img, w) && HasPixel(PlaneOf(rule, img, w), k)
    ensures k < |ScanImage(rule, img, w, |img|).labels.value|
    ensures ShowsValue(rule, img, w, k, ScanImage(rule, img, w, |img|).labels.value[k])
  {
    PlaneShape(rule, img, w);
    var y :| InRow(PlaneOf(rule, img, w), k, y);
    var x :| PolyAt(PlaneOf(rule, img, w), x, y) == k;
    PlaneAt(rule, img, w, Pixel(x, y));
    RootShowsValue(rule, img, w, Pixel(x, y));
  }

  lemma RootShowsValue(rule: Rule, img: Image, w: nat, q: Pixel)
    requires IsImage(img, w) && InImage(img, q)
    ensures var k, value := PolygonOf(rule, img, w, q), ScanImage(rule, img, w, |img|).labels.value;
            k < |value| && ShowsValue(rule, img, w, k, value[k])
  {
    var s, k := ScanImage(rule, img, w, |img|), PolygonOf(rule, img, w, q);
    ImageLabelled(rule, img, w, |img|);
    assert Carried(img, s.rows, s.labels, k);
    var p :| Witness(img, s.rows, s.labels, k, p);
    assert IdAt(s.rows, p) == k;
    assert PolygonOf(rule, img, w, p) == k;
  }

  // A step between directly joined pixels does not jump over a row.
  lemma StepKeepsRows(rule: Rule, img: Image, w: nat, p: Pixel, q: Pixel)
    requires IsImage(img, w) && Adjacent(Scanned, rule, img, w, p, q)
    ensures q.y <= p.y + 1
  {
  }

  lemma {:induction false} PathCrossesRow(path: seq<Pixel>, z: int) returns (i: nat)
    requires |path| > 0 && path[0].y <= z <= path[|path| - 1].y
    requires forall i :: 0 <= i < |path| - 1 ==> path[i + 1].y <= path[i].y + 1
    ensures i < |path| && path[i].y == z
  {
    i := 0;
    while path[i].y != z
      invariant i < |path| && path[i].y <= z
      decreases |path| - i
    {
      assert i != |path| - 1;
      i := i + 1;
    }
  }

  lemma PathStaysInPolygon(rule: Rule, img: Image, w: nat, path: seq<Pixel>, p: Pixel, q: Pixel, i: nat)
    requires IsImage(img, w) && IsPath(Scanned, rule, img, w, path, p, q) && i < |path|
    ensures InImage(img, path[i]) && PolygonOf(rule, img, w, path[i]) == PolygonOf(rule, img, w, p)
  {
    var prefix := path[..i + 1];
    assert forall m :: 0 <= m <= i ==> prefix[m] == path[m];
    assert IsPath(Scanned, rule, img, w, prefix, p, path[i]);
    PathEndsInImage(Scanned, rule, img, w, prefix, p, path[i]);
    PolygonsAreScannedRegions(rule, img, w, p, path[i]);
  }

  // Two pixels of a polygon, and a row between theirs.
  lemma NoGap(rule: Rule, img: Image, w: nat, p: Pixel, q: Pixel, z: int) returns (r: Pixel)
    requires IsImage(img, w) && InImage(img, p) && InImage(img, q) && p.y <= z <= q.y
    requires PolygonOf(rule, img, w, p) == PolygonOf(rule, img, w, q)
    ensures InImage(img, r) && r.y == z && PolygonOf(rule, img, w, r) == PolygonOf(rule, img, w, p)
  {
    PolygonsAreScannedRegions(rule, img, w, p, q);
    var path: seq<Pixel> :| IsPath(Scanned, rule, img, w, path, p, q);
    forall i | 0 <= i < |path| - 1 ensures path[i + 1].y <= path[i].y + 1 {
      StepKeepsRows(rule, img, w, path[i], path[i + 1]);
    }
    var i := PathCrossesRow(path, z);
    PathStaysInPolygon(rule, img, w, path, p, q, i);
    r := path[i];
  }

  /** The pixels of a polygon lie in rows without a gap. */
  lemma PlaneIsContiguous(rule: Rule, img: Image, w: nat)
    requires IsImage(img, w)
    ensures Contiguous(PlaneOf(rule, img, w))
  {
    var g := PlaneOf(rule, img, w);
    forall k: nat, y, z, t | InRow(g, k, y) && InRow(g, k, t) && y <= z <= t ensures InRow(g, k, z) {
      var x :| PolyAt(g, x, y) == k;
      var u :| PolyAt(g, u, t) == k;
      PlaneShape(rule, img, w);
      PlaneAt(rule, img, w, Pixel(x, y));
      PlaneAt(rule, img, w, Pixel(u, t));
      var r := NoGap(rule, img, w, Pixel(x, y), Pixel(u, t), z);
      PlaneAt(rule, img, w, r);
    }
  }
}
