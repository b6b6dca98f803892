/** The polygonizer: a first pass labels the image, a second one labels it again and collects the
    borders of the polygons. */
module FPolygonize {
  import opened Common
  import opened Forest
  import opened Regions
  import opened Labelling
  import opened Enumerator
  import opened SieveLines
  import opened Polygons
  import opened Borders
  import opened LabelledPlane
  import opened Polygonize

  // Labels all lines and flattens the id map.
  method FirstPass(rule: Rule, img: Image, w: nat) returns (idMap: seq<nat>, value: seq<int>)
    requires IsImage(img, w)
    ensures var l := ScanImage(rule, img, w, |img|).labels; idMap == Flat(l.parent) && value == l.value
  {
    ghost var script := ScriptOf(rule, img, w);
    ScriptStarts(script, rule, img, w);
    var e := new PolygonEnumerator(rule);
    LabelAll(e, img, w, script);
    e.CompleteMerges();
    idMap, value := e.polyIdMap[..e.nextPolygonId], e.polyValue[..e.nextPolygonId];
  }

  method LabelAll(e: PolygonEnumerator, img: Image, w: nat, ghost script: Script)
    requires IsImage(img, w) && IsScript(script, e.rule, img, w) && Follows(e, None, script, 0)
    modifies e, e.polyIdMap, e.polyValue
    ensures e.Valid() && e.Regrown() && e.Current() == script.labels[|img|]
  {
    var above := None;
    for y := 0 to |img|
      invariant Follows(e, above, script, y) && e.Regrown()
    {
      var thisId;
      above, thisId := FollowLine(e, above, img[y], script, img, w, y);
    }
  }

  // A line of ids with -1 at both ends.
  function Padded(ids: seq<nat>): (line: seq<int>)
    ensures |line| == |ids| + 2
    ensures line[0] == line[|ids| + 1] == -1 && forall i :: 0 < i <= |ids| ==> line[i] == ids[i - 1]
  {
    [-1] + seq(|ids|, i requires 0 <= i < |ids| => ids[i] as int) + [-1]
  }

  function Outside(w: nat): seq<int> { seq(w + 2, _ => -1) }

  // A pixel that was labelled again shows its final polygon.
  lemma IdShowsPlane(rule: Rule, img: Image, w: nat, y: nat, x: nat)
    requires IsImage(img, w) && y < |img| && x < w
    ensures var s := ScanImage(rule, img, w, |img|);
      s.rows[y][x] < |s.labels.parent| && Flat(s.labels.parent)[s.rows[y][x]] == PolyAt(PlaneOf(rule, img, w), x, y)
  {
    PlaneAt(rule, img, w, Pixel(x, y));
    var s := ScanImage(rule, img, w, |img|);
    assert IdAt(s.rows, Pixel(x, y)) == s.rows[y][x];
  }

  // A line that was labelled again shows the final polygons of its pixels.
  lemma PaddedShowsPlane(rule: Rule, img: Image, w: nat, idMap: seq<nat>, y: nat, ids: seq<nat>)
    requires IsImage(img, w) && y < |img| && idMap == Flat(ScanImage(rule, img, w, |img|).labels.parent)
    requires ids == ScanImage(rule, img, w, |img|).rows[y]
    ensures PaddedLine(PlaneOf(rule, img, w), idMap, Padded(ids), y) && |ids| == w
  {
    var g, line := PlaneOf(rule, img, w), Padded(ids);
    PlaneShape(rule, img, w);
    forall i | 0 <= i < |line|
      ensures -1 <= line[i] < |idMap| && (if line[i] == -1 then -1 else idMap[line[i]]) == PolyAt(g, i - 1, y)
    {
      if 0 < i <= w { IdShowsPlane(rule, img, w, y, i - 1); }
    }
  }

  lemma OutsideShowsPlane(g: Plane, w: nat, idMap: seq<nat>, y: int)
    requires y < 0 || y >= |g|
    ensures PaddedLine(g, idMap, Outside(w), y)
  {
  }

  lemma PlaneInRange(rule: Rule, img: Image, w: nat)
    requires IsImage(img, w)
    ensures InRange(PlaneOf(rule, img, w), |ScanImage(rule, img, w, |img|).labels.parent|)
  {
    var g := PlaneOf(rule, img, w);
    PlaneShape(rule, img, w);
    forall y, x | 0 <= y < |g| && 0 <= x < |g[y]| ensures g[y][x] < |ScanImage(rule, img, w, |img|).labels.parent| {
      PlaneAt(rule, img, w, Pixel(x, y));
    }
  }

  // The collector has come to line j.
  ghost predicate Collects(c: Collector, g: Plane, lastLine: seq<int>, w: nat, j: nat)
    reads c, c.Objects()
  {
    && c.Valid() && InRange(g, |c.polys|) && |lastLine| == w + 2 && PaddedLine(g, c.idMap, lastLine, j - 1)
    && AllCollected(g, c.Drafts(), c.done, j, 0)
    && FeaturesRight(g, c.rule, c.marker, c.polyValue, c.features, c.whose, c.done)
  }

  // One line of the second pass is collected.
  method CollectLine(c: Collector, thisLine: seq<int>, lastLine: seq<int>, j: nat, ghost g: Plane, ghost w: nat)
    requires Collects(c, g, lastLine, w, j) && forall y :: 0 <= y < |g| ==> |g[y]| == w
    requires |thisLine| == w + 2 && PaddedLine(g, c.idMap, thisLine, j)
    modifies c`polys, c.Objects()
    ensures Collects(c, g, thisLine, w, j + 1) && c.Renewed()
  {
    ghost var steps := StepsFrom(g, c.Drafts(), j, w + 2);
    LineIsCollected(g, w, steps, |c.polys|, c.done, j);
    c.AddLine(thisLine, lastLine, j, g, steps);
  }

  // Polygons are flushed, in every eighth line.
  method FlushLine(c: Collector, thisLine: seq<int>, j: nat, n: nat, ghost g: Plane, ghost w: nat)
    requires Collects(c, g, thisLine, w, j + 1) && n <= |c.idMap| && Contiguous(g)
    modifies c, c.Objects()
    ensures Collects(c, g, thisLine, w, j + 1) && c.Renewed()
  {
    if j % 8 == 7 { c.Flush(n, j, g); }
  }

  method CollectNext(c: Collector, thisLine: seq<int>, lastLine: seq<int>, j: nat, n: nat, ghost g: Plane, ghost w: nat)
    requires Collects(c, g, lastLine, w, j) && n <= |c.idMap| && Contiguous(g) && forall y :: 0 <= y < |g| ==> |g[y]| == w
    requires |thisLine| == w + 2 && PaddedLine(g, c.idMap, thisLine, j)
    modifies c, c.Objects()
    ensures Collects(c, g, thisLine, w, j + 1) && c.Renewed()
  {
    CollectLine(c, thisLine, lastLine, j, g, w);
    FlushLine(c, thisLine, j, n, g, w);
  }

  // The lines of ids of the second pass, and how many ids were handed out with each of them.
  ghost predicate Relabelled2(g: Plane, w: nat, idMap: seq<nat>, lines: seq<seq<int>>, counts: seq<nat>) {
    && |lines| == |counts| <= |g|
    && forall j :: 0 <= j < |lines| ==> |lines[j]| == w + 2 && PaddedLine(g, idMap, lines[j], j) && counts[j] <= |idMap|
  }

  lemma OneLineMore(g: Plane, w: nat, idMap: seq<nat>, lines: seq<seq<int>>, counts: seq<nat>, line: seq<int>, n: nat)
    requires Relabelled2(g, w, idMap, lines, counts) && |lines| < |g| && n <= |idMap|
    requires |line| == w + 2 && PaddedLine(g, idMap, line, |lines|)
    ensures Relabelled2(g, w, idMap, lines + [line], counts + [n])
  {
  }

  // A new enumerator labels all lines again.
  method LabelLinesAgain(rule: Rule, img: Image, w: nat, ghost idMap: seq<nat>, ghost g: Plane)
    returns (lines: seq<seq<int>>, counts: seq<nat>)
    requires IsImage(img, w) && idMap == Flat(ScanImage(rule, img, w, |img|).labels.parent)
    requires g == PlaneOf(rule, img, w) && |g| == |img|
    ensures |lines| == |img| && Relabelled2(g, w, idMap, lines, counts)
  {
    ghost var script := ScriptOf(rule, img, w);
    ScriptStarts(script, rule, img, w);
    var e := new PolygonEnumerator(rule);
    forall j | 0 <= j < |img| ensures Shown(script, g, w, idMap, j) { LineIsShown(script, rule, img, w, idMap, j); }
    lines, counts := LabelLines(e, img, w, script, idMap, g);
  }

  // What line j of a pass shows.
  ghost predicate Shown(script: Script, g: Plane, w: nat, idMap: seq<nat>, j: nat) {
    && j < |script.ids| && j + 1 < |script.labels| && |script.labels[j + 1].parent| <= |idMap|
    && |script.ids[j]| == w && PaddedLine(g, idMap, Padded(script.ids[j]), j)
  }

  lemma LineIsShown(script: Script, rule: Rule, img: Image, w: nat, idMap: seq<nat>, j: nat)
    requires IsImage(img, w) && IsScript(script, rule, img, w) && j < |img|
    requires idMap == Flat(ScanImage(rule, img, w, |img|).labels.parent)
    ensures Shown(script, PlaneOf(rule, img, w), w, idMap, j)
  {
    PaddedShowsPlane(rule, img, w, idMap, j, script.ids[j]);
    ScanKeepsRows(rule, img, w, j + 1, |img|);
  }

  method LabelLines(e: PolygonEnumerator, img: Image, w: nat, ghost script: Script, ghost idMap: seq<nat>, ghost g: Plane)
    returns (lines: seq<seq<int>>, counts: seq<nat>)
    requires IsImage(img, w) && |g| == |img| && forall j :: 0 <= j < |img| ==> Shown(script, g, w, idMap, j)
    requires IsScript(script, e.rule, img, w) && Follows(e, None, script, 0)
    modifies e, e.polyIdMap, e.polyValue
    ensures |lines| == |img| && Relabelled2(g, w, idMap, lines, counts)
  {
    var above := None;
    lines, counts := [], [];
    for j := 0 to |img|
      invariant Follows(e, above, script, j) && e.Regrown() && |lines| == j && Relabelled2(g, w, idMap, lines, counts)
    {
      assert Shown(script, g, w, idMap, j);
      var thisId;
      above, thisId := FollowLine(e, above, img[j], script, img, w, j);
      OneLineMore(g, w, idMap, lines, counts, Padded(thisId), e.nextPolygonId);
      lines, counts := lines + [Padded(thisId)], counts + [e.nextPolygonId];
    }
  }

  // Collects the edges of all lines of the image.
  method CollectLines(c: Collector, lines: seq<seq<int>>, counts: seq<nat>, w: nat, ghost g: Plane) returns (lastLine: seq<int>)
    requires Contiguous(g) && forall y :: 0 <= y < |g| ==> |g[y]| == w
    requires Relabelled2(g, w, c.idMap, lines, counts) && Collects(c, g, Outside(w), w, 0)
    modifies c, c.Objects()
    ensures Collects(c, g, lastLine, w, |lines|) && c.Renewed()
  {
    lastLine := Outside(w);
    for j := 0 to |lines|
      invariant Collects(c, g, lastLine, w, j) && c.Renewed()
    {
      CollectNext(c, lines[j], lastLine, j, counts[j], g, w);
      lastLine := lines[j];
    }
  }

  // And those of the line below the image.
  method SecondPass(c: Collector, lines: seq<seq<int>>, counts: seq<nat>, w: nat, ghost g: Plane)
    requires Contiguous(g) && forall y :: 0 <= y < |g| ==> |g[y]| == w
    requires |lines| == |g| && Relabelled2(g, w, c.idMap, lines, counts) && Collects(c, g, Outside(w), w, 0)
    modifies c, c.Objects()
    ensures Collects(c, g, Outside(w), w, |lines| + 1) && c.Renewed()
  {
    var lastLine := CollectLines(c, lines, counts, w, g);
    OutsideShowsPlane(g, w, c.idMap, |lines|);
    CollectNext(c, Outside(w), lastLine, |lines|, |c.idMap|, g, w);
  }

  lemma NothingCollectedYet(c: Collector, g: Plane, w: nat)
    requires c.Valid() && InRange(g, |c.polys|) && forall k :: 0 <= k < |c.polys| ==> c.Drafts()[k] == NO_DRAFT
    requires c.features == [] && c.whose == [] && c.done == {}
    ensures Collects(c, g, Outside(w), w, 0)
  {
    OutsideShowsPlane(g, w, c.idMap, -1);
    forall k | 0 <= k < |c.polys| ensures Collected(g, k, c.Drafts()[k], false, 0, 0, false) {
      NothingCollected(g, k);
    }
  }

  method StartCollecting(rule: Rule, marker: Option<int>, idMap: seq<nat>, value: seq<int>, ghost g: Plane, ghost w: nat)
    returns (c: Collector)
    requires |idMap| == |value| && InRange(g, |idMap|) && forall k :: 0 <= k < |idMap| ==> idMap[k] < |idMap|
    ensures fresh(c) && c.Objects() == {} && Collects(c, g, Outside(w), w, 0)
    ensures c.rule == rule && c.marker == marker && c.idMap == idMap && c.polyValue == value
  {
    c := new Collector(rule, marker, idMap, value);
    NothingCollectedYet(c, g, w);
  }

  // Collects all lines and gives all polygons away.
  method Collect(rule: Rule, marker: Option<int>, idMap: seq<nat>, value: seq<int>, lines: seq<seq<int>>, counts: seq<nat>, w: nat,
                 ghost g: Plane)
    returns (features: seq<Feature>)
    requires |idMap| == |value| && InRange(g, |idMap|) && forall k :: 0 <= k < |idMap| ==> idMap[k] < |idMap|
    requires Contiguous(g) && forall y :: 0 <= y < |g| ==> |g[y]| == w
    requires |lines| == |g| && Relabelled2(g, w, idMap, lines, counts)
    ensures exists whose :: AllGiven(g, rule, marker, value, features, whose)
  {
    var c := StartCollecting(rule, marker, idMap, value, g, w);
    SecondPass(c, lines, counts, w, g);
    c.Finish(g);
    features := c.features;
    assert AllGiven(g, rule, marker, value, features, c.whose);
  }

  // Every feature has the value of a pixel of its polygon.
  ghost predicate ValuesShown(rule: Rule, img: Image, w: nat, features: seq<Feature>, whose: seq<nat>)
    requires IsImage(img, w)
  {
    |features| == |whose| && forall i :: 0 <= i < |whose| ==> ShowsValue(rule, img, w, whose[i], features[i].value)
  }

  lemma GivenShowValues(rule: Rule, img: Image, w: nat, marker: Option<int>, features: seq<Feature>, whose: seq<nat>)
    requires IsImage(img, w)
    requires AllGiven(PlaneOf(rule, img, w), rule, marker, ScanImage(rule, img, w, |img|).labels.value, features, whose)
    ensures ValuesShown(rule, img, w, features, whose)
  {
    forall i | 0 <= i < |whose| ensures ShowsValue(rule, img, w, whose[i], features[i].value) {
      assert whose[i] in whose;
      ValueIsShown(rule, img, w, whose[i]);
    }
  }

  /** Turns the polygons of an image into features, with their borders as closed rings: each polygon
      once, but for those that are masked, with the value of one of its pixels. */
  method GDALFPolygonize(rule: Rule, marker: Option<int>, img: Image, w: nat) returns (features: seq<Feature>)
    requires IsImage(img, w)
    ensures exists whose ::
      && AllGiven(PlaneOf(rule, img, w), rule, marker, ScanImage(rule, img, w, |img|).labels.value, features, whose)
      && ValuesShown(rule, img, w, features, whose)
  {
    var idMap, value := FirstPass(rule, img, w);
    ghost var g := PlaneOf(rule, img, w);
    PlaneInRange(rule, img, w);
    PlaneIsContiguous(rule, img, w);
    PlaneShape(rule, img, w);
    var lines, counts := LabelLinesAgain(rule, img, w, idMap, g);
    features := Collect(rule, marker, idMap, value, lines, counts, w, g);
    ghost var whose :| AllGiven(g, rule, marker, value, features, whose);
    GivenShowValues(rule, img, w, marker, features, whose);
  }
}
