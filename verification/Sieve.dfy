/** The three passes of the sieve filter. */
module Sieve {
  import opened Common
  import opened Regions
  import opened Labelling
  import opened Enumerator
  import opened SieveSpec
  import opened SieveProof
  import opened SieveSizes
  import opened SieveNeighbours
  import opened SieveLines

  // The ids of a line are counted.
  method CountLine(thisId: seq<nat>, sizes0: seq<int>, ghost rows: seq<seq<nat>>) returns (sizes: seq<int>)
    requires Counts(rows, sizes0) && forall i :: 0 <= i < |thisId| ==> thisId[i] < |sizes0|
    ensures |sizes| == |sizes0| && Counts(rows + [thisId], sizes)
  {
    sizes := sizes0;
    forall id | 0 <= id < |sizes| ensures Carriers(rows + [thisId[..0]], id) == Carriers(rows, id) {
      assert forall p :: Seen(rows + [thisId[..0]], p) <==> Seen(rows, p);
    }
    for k := 0 to |thisId|
      invariant |sizes| == |sizes0| && Counts(rows + [thisId[..k]], sizes)
    {
      forall id | 0 <= id < |sizes|
        ensures |Carriers(rows + [thisId[..k + 1]], id)|
             == |Carriers(rows + [thisId[..k]], id)| + if thisId[k] == id then 1 else 0
      {
        CarriersOfPixel(rows, thisId, k, id);
      }
      if sizes[thisId[k]] < MY_MAX_INT {
        sizes := sizes[thisId[k] := sizes[thisId[k]] + 1];
      }
    }
    assert thisId[..|thisId|] == thisId;
  }

  // Labels and counts the lines one after the other.
  method CountLines(src: Image, mask: Mask, w: nat, conn: int) returns (e: PolygonEnumerator, sizes: seq<int>)
    requires GoodInput(src, mask, w)
    ensures e.Valid() && fresh(e) && fresh(e.polyIdMap) && fresh(e.polyValue) && |sizes| == e.nextPolygonId
    ensures var s := ScanImage(ExactRule(conn), Masked(src, mask, w), w, |src|);
            e.Current() == s.labels && Counts(s.rows, sizes)
  {
    ghost var script := ScriptOf(ExactRule(conn), Masked(src, mask, w), w);
    ScriptStarts(script, ExactRule(conn), Masked(src, mask, w), w);
    e := new PolygonEnumerator(ExactRule(conn));
    sizes := CountAll(e, src, mask, w, script);
  }

  method CountAll(e: PolygonEnumerator, src: Image, mask: Mask, w: nat, ghost script: Script) returns (sizes: seq<int>)
    requires GoodInput(src, mask, w) && IsScript(script, e.rule, Masked(src, mask, w), w) && Follows(e, None, script, 0)
    requires |script.ids| == |src| && e.nextPolygonId == 0
    modifies e, e.polyIdMap, e.polyValue
    ensures e.Valid() && e.Regrown() && |sizes| == e.nextPolygonId
    ensures |script.labels| == |src| + 1 && e.Current() == script.labels[|src|] && Counts(script.ids, sizes)
  {
    var above := None;
    sizes := [];
    for y := 0 to |src|
      invariant Follows(e, above, script, y) && e.Regrown()
      invariant |sizes| == e.nextPolygonId && Counts(script.ids[..y], sizes)
    {
      above, sizes := CountNext(e, above, src, mask, w, y, sizes, script);
    }
    assert script.ids[..|src|] == script.ids;
  }

  // Reads line y, labels it and counts its ids.
  method CountNext(e: PolygonEnumerator, above: Option<Above>, src: Image, mask: Mask, w: nat, y: nat, sizes0: seq<int>,
                   ghost script: Script)
    returns (next: Option<Above>, sizes: seq<int>)
    requires GoodInput(src, mask, w) && y < |src| && y < |script.ids|
    requires IsScript(script, e.rule, Masked(src, mask, w), w) && Follows(e, above, script, y)
    requires |sizes0| == e.nextPolygonId && Counts(script.ids[..y], sizes0)
    modifies e, e.polyIdMap, e.polyValue
    ensures Follows(e, next, script, y + 1) && e.Regrown()
    ensures |sizes| == e.nextPolygonId && Counts(script.ids[..y + 1], sizes)
  {
    ScriptIds(script, e.rule, Masked(src, mask, w), w, y);
    var thisId;
    next, thisId := RelabelNext(e, above, src, mask, w, y, script);
    assert script.ids[..y + 1] == script.ids[..y] + [thisId];
    sizes := ResizeAndCount(thisId, sizes0, e.nextPolygonId, script.ids[..y]);
  }

  method ResizeAndCount(thisId: seq<nat>, sizes0: seq<int>, n: nat, ghost rows: seq<seq<nat>>) returns (sizes: seq<int>)
    requires Counts(rows, sizes0) && forall p :: Seen(rows, p) ==> IdAt(rows, p) < |sizes0|
    requires |sizes0| <= n && forall i :: 0 <= i < |thisId| ==> thisId[i] < n
    ensures |sizes| == n && Counts(rows + [thisId], sizes)
  {
    sizes := sizes0;
    if n > |sizes| {
      NewIdsCarryNothing(rows, sizes, n - |sizes|);
      sizes := sizes + seq(n - |sizes|, _ => 0);
    }
    sizes := CountLine(thisId, sizes, rows);
  }

  // The sizes of fragments are pushed into the polygon they were merged into.
  method PushSizes(map_: seq<nat>, counts: seq<int>) returns (sizes: seq<int>)
    requires IsFlat(map_) && |counts| == |map_|
    ensures sizes == PushAll(map_, counts, |counts|)
  {
    sizes := counts;
    for i := 0 to |map_|
      invariant sizes == PushAll(map_, counts, i)
    {
      if map_[i] != i {
        var size := sizes[map_[i]] + sizes[i];
        if size > MY_MAX_INT { size := MY_MAX_INT; }
        sizes := sizes[map_[i] := size][i := 0];
      }
    }
  }

  // The id map of the first pass, flattened, and the sizes of its polygons.
  method FirstPass(src: Image, mask: Mask, w: nat, conn: int) returns (map_: seq<nat>, value: seq<int>, sizes: seq<int>)
    requires GoodInput(src, mask, w)
    ensures var g := PolygonsOf(conn, Masked(src, mask, w), w);
            map_ == g.map_ && value == g.value && SizesOf(g, w, sizes)
  {
    var e, counts := CountLines(src, mask, w, conn);
    e.CompleteMerges();
    map_, value := e.polyIdMap[..e.nextPolygonId], e.polyValue[..e.nextPolygonId];
    ghost var g := PolygonsOf(conn, Masked(src, mask, w), w);
    PushedSizes(g, w, counts);
    sizes := PushSizes(map_, counts);
  }

  // Compares two neighbouring polygons, and updates the largest neighbour of each.
  method CompareNeighbour(id1: nat, id2: nat, map_: seq<nat>, value: seq<int>, sizes: seq<int>, big: array<int>,
                          ghost g: Polygons, ghost w: nat, ghost E: set<(Pixel, Pixel)>, ghost p: Pixel, ghost q: Pixel)
    requires GoodPolygons(g, w) && map_ == g.map_ && value == g.value && BestSoFar(g, w, sizes, E, big[..])
    requires Seen(g.rows, p) && Seen(g.rows, q) && id1 == IdAt(g.rows, p) && id2 == IdAt(g.rows, q)
    modifies big
    ensures BestSoFar(g, w, sizes, E + {(p, q), (q, p)}, big[..])
  {
    var poly1, poly2 := map_[id1], map_[id2];
    BetterKeepsBest(g, w, sizes, E, big[..], p, q);
    ghost var big1 := if Rival(g, poly1, poly2) then Better(sizes, big[..], poly1, poly2) else big[..];
    BetterKeepsBest(g, w, sizes, E + {(p, q)}, big1, q, p);
    assert E + {(p, q)} + {(q, p)} == E + {(p, q), (q, p)};
    if poly1 == poly2 { return; }
    if value[poly1] == NODATA_MARKER || value[poly2] == NODATA_MARKER { return; }
    if big[poly1] == -1 || sizes[big[poly1]] < sizes[poly2] { big[poly1] := poly2; }
    assert big[..] == big1;
    if big[poly2] == -1 || sizes[big[poly2]] < sizes[poly1] { big[poly2] := poly1; }
    assert big[..] == Better(sizes, big1, poly2, poly1);
  }

  // Compares the polygon of a pixel with those of the neighbours scanned before it.
  method ComparePixel(conn: int, above: Option<Above>, thisId: seq<nat>, x: nat, map_: seq<nat>, value: seq<int>,
                      sizes: seq<int>, big: array<int>, ghost g: Polygons, ghost w: nat, ghost y: nat, ghost E: set<(Pixel, Pixel)>)
    requires GoodPolygons(g, w) && map_ == g.map_ && value == g.value && BestSoFar(g, w, sizes, E, big[..])
    requires x < w && y < |g.rows| && thisId == g.rows[y]
    requires above.Some? <==> y > 0
    requires above.Some? ==> above.value.ids == g.rows[y - 1]
    modifies big
    ensures BestSoFar(g, w, sizes, E + PairsOf(conn, w, Pixel(x, y)), big[..])
  {
    ghost var b, F := Pixel(x, y), E;
    if above.Some? {
      var lastId := above.value.ids;
      CompareNeighbour(thisId[x], lastId[x], map_, value, sizes, big, g, w, F, b, Pixel(x, y - 1));
      F := F + Both(b, Pixel(x, y - 1));
      if x > 0 && conn == 8 {
        CompareNeighbour(thisId[x], lastId[x - 1], map_, value, sizes, big, g, w, F, b, Pixel(x - 1, y - 1));
        F := F + Both(b, Pixel(x - 1, y - 1));
      }
      if x < |thisId| - 1 && conn == 8 {
        CompareNeighbour(thisId[x], lastId[x + 1], map_, value, sizes, big, g, w, F, b, Pixel(x + 1, y - 1));
        F := F + Both(b, Pixel(x + 1, y - 1));
      }
    }
    if x > 0 {
      CompareNeighbour(thisId[x], thisId[x - 1], map_, value, sizes, big, g, w, F, b, Pixel(x - 1, y));
      F := F + Both(b, Pixel(x - 1, y));
    }
    assert F == E + PairsOf(conn, w, b);
  }

  method CompareLine(conn: int, above: Option<Above>, thisId: seq<nat>, map_: seq<nat>, value: seq<int>,
                     sizes: seq<int>, big: array<int>, ghost g: Polygons, ghost w: nat, ghost y: nat)
    requires GoodPolygons(g, w) && map_ == g.map_ && value == g.value
    requires y < |g.rows| && thisId == g.rows[y] && (above.Some? <==> y > 0)
    requires above.Some? ==> above.value.ids == g.rows[y - 1]
    requires BestSoFar(g, w, sizes, NeighbourPairs(conn, g.rows[..y]), big[..])
    modifies big
    ensures BestSoFar(g, w, sizes, NeighbourPairs(conn, g.rows[..y + 1]), big[..])
  {
    ghost var rows := g.rows[..y];
    assert forall p :: Seen(rows + [thisId[..0]], p) <==> Seen(rows, p);
    assert NeighbourPairs(conn, rows + [thisId[..0]]) == NeighbourPairs(conn, rows);
    for x := 0 to |thisId|
      invariant BestSoFar(g, w, sizes, NeighbourPairs(conn, rows + [thisId[..x]]), big[..])
    {
      PairsGrow(conn, w, rows, thisId, x);
      ComparePixel(conn, above, thisId, x, map_, value, sizes, big, g, w, y, NeighbourPairs(conn, rows + [thisId[..x]]));
    }
    assert thisId[..|thisId|] == thisId;
    assert rows + [thisId] == g.rows[..y + 1];
  }

  // Labels line y again and compares its pixels with their neighbours.
  method CompareNext(e: PolygonEnumerator, above: Option<Above>, src: Image, mask: Mask, w: nat, y: nat, conn: int,
                     map_: seq<nat>, value: seq<int>, sizes: seq<int>, big: array<int>, ghost g: Polygons, ghost script: Script)
    returns (next: Option<Above>)
    requires GoodInput(src, mask, w) && y < |src| && IsScript(script, e.rule, Masked(src, mask, w), w)
    requires Follows(e, above, script, y) && g.rows == script.ids && |g.rows| == |src|
    requires e.polyIdMap as object != big as object && e.polyValue != big
    requires GoodPolygons(g, w) && map_ == g.map_ && value == g.value
    requires BestSoFar(g, w, sizes, NeighbourPairs(conn, g.rows[..y]), big[..])
    modifies e, e.polyIdMap, e.polyValue, big
    ensures Follows(e, next, script, y + 1) && e.Regrown()
    ensures BestSoFar(g, w, sizes, NeighbourPairs(conn, g.rows[..y + 1]), big[..])
  {
    ghost var was := big[..];
    AboveInScript(script, e.rule, Masked(src, mask, w), w, y);
    var thisId;
    next, thisId := RelabelNext(e, above, src, mask, w, y, script);
    assert big[..] == was;
    CompareLine(conn, above, thisId, map_, value, sizes, big, g, w, y);
  }

  // Finds for every polygon a largest one among those next to it.
  method SecondPass(e: PolygonEnumerator, src: Image, mask: Mask, w: nat, conn: int, map_: seq<nat>, value: seq<int>,
                    sizes: seq<int>, big: array<int>, ghost g: Polygons, ghost script: Script)
    requires GoodInput(src, mask, w) && IsScript(script, e.rule, Masked(src, mask, w), w)
    requires Follows(e, None, script, 0) && g.rows == script.ids && |g.rows| == |src|
    requires e.polyIdMap as object != big as object && e.polyValue != big
    requires GoodPolygons(g, w) && map_ == g.map_ && value == g.value
    requires BestSoFar(g, w, sizes, NeighbourPairs(conn, g.rows[..0]), big[..])
    modifies e, e.polyIdMap, e.polyValue, big
    ensures e.Valid() && e.Regrown()
    ensures BestSoFar(g, w, sizes, NeighbourPairs(conn, g.rows[..|src|]), big[..])
  {
    var above := None;
    for y := 0 to |src|
      invariant Follows(e, above, script, y) && e.Regrown()
      invariant BestSoFar(g, w, sizes, NeighbourPairs(conn, g.rows[..y]), big[..])
    {
      above := CompareNext(e, above, src, mask, w, y, conn, map_, value, sizes, big, g, script);
    }
  }

  // Keeps only the neighbours that a polygon below the threshold is to be merged into.
  method ApplyThreshold(map_: seq<nat>, value: seq<int>, sizes: seq<int>, big: array<int>, threshold: int, ghost g: Polygons)
    requires map_ == g.map_ && value == g.value && |map_| == |value| == |sizes| == big.Length
    requires InRange(big[..])
    modifies big
    ensures InRange(big[..])
    ensures forall r :: 0 <= r < big.Length ==> big[r] == TargetOf(g, sizes, old(big[..]), threshold, r)
  {
    for i := 0 to |map_|
      invariant forall r :: 0 <= r < i ==> big[r] == TargetOf(g, sizes, old(big[..]), threshold, r)
      invariant forall r :: i <= r < big.Length ==> big[r] == old(big[r])
    {
      if map_[i] != i { continue; }
      if value[i] == NODATA_MARKER { continue; }
      if sizes[i] >= threshold {
        big[i] := -1;
        continue;
      }
      if big[i] == -1 { continue; }
      if sizes[big[i]] >= threshold { continue; }
      big[i] := -1;
    }
  }

  // Writes the pixels, those of merged polygons with the value of their target.
  method ThirdPass(e: PolygonEnumerator, src: Image, mask: Mask, w: nat, map_: seq<nat>, value: seq<int>,
                   target: seq<int>, ghost g: Polygons, ghost script: Script)
    returns (dst: Image)
    requires GoodInput(src, mask, w) && e.Valid() && IsScript(script, e.rule, Masked(src, mask, w), w)
    requires GoodPolygons(g, w) && g.rows == script.ids && |g.rows| == |src|
    requires map_ == g.map_ && value == g.value && |target| == |map_| && InRange(target)
    modifies e, e.polyIdMap, e.polyValue
    ensures MergedLines(src, g, w, target, dst, |src|)
  {
    ScriptStarts(script, e.rule, Masked(src, mask, w), w);
    e.Clear();
    var above := None;
    dst := [];
    for y := 0 to |src|
      invariant Follows(e, above, script, y) && e.Regrown()
      invariant MergedLines(src, g, w, target, dst, y)
    {
      above, dst := WriteNext(e, above, src, mask, w, y, map_, value, target, dst, g, script);
    }
  }

  // Labels line y again and writes it.
  method WriteNext(e: PolygonEnumerator, above: Option<Above>, src: Image, mask: Mask, w: nat, y: nat,
                   map_: seq<nat>, value: seq<int>, target: seq<int>, dst: Image, ghost g: Polygons, ghost script: Script)
    returns (next: Option<Above>, dst': Image)
    requires GoodInput(src, mask, w) && y < |src| && IsScript(script, e.rule, Masked(src, mask, w), w)
    requires Follows(e, above, script, y) && GoodPolygons(g, w) && g.rows == script.ids && |g.rows| == |src|
    requires map_ == g.map_ && value == g.value && |target| == |map_| && InRange(target)
    requires MergedLines(src, g, w, target, dst, y)
    modifies e, e.polyIdMap, e.polyValue
    ensures Follows(e, next, script, y + 1) && e.Regrown()
    ensures MergedLines(src, g, w, target, dst', y + 1)
  {
    var thisId;
    next, thisId := RelabelNext(e, above, src, mask, w, y, script);
    var line := WriteLine(src, thisId, map_, value, target, g, w, y);
    MergedNext(src, g, w, target, dst, line);
    dst' := dst + [line];
  }

  method WriteLine(src: Image, thisId: seq<nat>, map_: seq<nat>, value: seq<int>, target: seq<int>,
                   ghost g: Polygons, ghost w: nat, y: nat)
    returns (line: seq<int>)
    requires GoodPolygons(g, w) && IsImage(src, w) && |src| == |g.rows| && y < |src| && thisId == g.rows[y]
    requires map_ == g.map_ && value == g.value && |target| == |map_|
    requires InRange(target)
    ensures |line| == w
    ensures forall x :: 0 <= x < w ==> line[x] == Merged(src, g, w, target, Pixel(x, y))
  {
    line := src[y];
    for x := 0 to |line|
      invariant |line| == w
      invariant forall i :: 0 <= i < x ==> line[i] == Merged(src, g, w, target, Pixel(i, y))
      invariant forall i :: x <= i < |line| ==> line[i] == src[y][i]
    {
      var thisPoly := map_[thisId[x]];
      assert thisPoly == Poly(g, w, Pixel(x, y));
      if target[thisPoly] != -1 {
        line := line[x := value[target[thisPoly]]];
      }
    }
  }

  // The polygon that every polygon is to be merged into, if any.
  method FindTargets(e: PolygonEnumerator, src: Image, mask: Mask, w: nat, conn: int, threshold: int,
                     map_: seq<nat>, value: seq<int>, sizes: seq<int>, ghost g: Polygons, ghost script: Script)
    returns (target: seq<int>, ghost best: seq<int>)
    requires GoodInput(src, mask, w) && IsScript(script, e.rule, Masked(src, mask, w), w) && Follows(e, None, script, 0)
    requires GoodPolygons(g, w) && g.rows == script.ids && |g.rows| == |src|
    requires map_ == g.map_ && value == g.value && |sizes| == |map_|
    modifies e, e.polyIdMap, e.polyValue
    ensures e.Valid() && e.Regrown()
    ensures |target| == |best| == |sizes| && AllBest(conn, g, w, sizes, best) && InRange(best) && InRange(target)
    ensures forall r :: 0 <= r < |target| ==> target[r] == TargetOf(g, sizes, best, threshold, r)
  {
    var big := new int[|sizes|](_ => -1);
    NothingCompared(conn, g, w, sizes, big[..]);
    SecondPass(e, src, mask, w, conn, map_, value, sizes, big, g, script);
    best := big[..];
    assert g.rows[..|src|] == g.rows;
    BestInRange(g, w, sizes, NeighbourPairs(conn, g.rows), best);
    ApplyThreshold(map_, value, sizes, big, threshold, g);
    target := big[..];
  }

  // The second and the third pass, with one enumerator.
  method Passes(src: Image, mask: Mask, w: nat, threshold: int, conn: int, map_: seq<nat>, value: seq<int>, sizes: seq<int>,
                ghost g: Polygons)
    returns (dst: Image, ghost target: seq<int>, ghost best: seq<int>)
    requires GoodInput(src, mask, w) && g == PolygonsOf(conn, Masked(src, mask, w), w)
    requires map_ == g.map_ && value == g.value && |sizes| == |map_|
    ensures |target| == |best| == |sizes| && AllBest(conn, g, w, sizes, best) && InRange(best) && InRange(target)
    ensures forall r :: 0 <= r < |target| ==> target[r] == TargetOf(g, sizes, best, threshold, r)
    ensures MergedLines(src, g, w, target, dst, |src|)
  {
    ghost var script := ScriptOf(ExactRule(conn), Masked(src, mask, w), w);
    ScriptStarts(script, ExactRule(conn), Masked(src, mask, w), w);
    var e := new PolygonEnumerator(ExactRule(conn));
    var t;
    t, best := FindTargets(e, src, mask, w, conn, threshold, map_, value, sizes, g, script);
    dst := ThirdPass(e, src, mask, w, map_, value, t, g, script);
    target := t;
  }

  /** Replaces the pixels of small regions by the value of a largest neighbouring region. */
  method GDALSieveFilter(src: Image, mask: Mask, w: nat, threshold: int, conn: int) returns (dst: Image)
    requires GoodInput(src, mask, w)
    ensures IsImage(dst, w) && |dst| == |src|
    ensures forall p :: InImage(src, p) ==>
              SievedTo(Scanned, conn, src, Masked(src, mask, w), w, threshold, p, At(dst, p))
    ensures conn == 4 ==> forall p :: InImage(src, p) ==>
              SievedTo(Four, 4, src, Masked(src, mask, w), w, threshold, p, At(dst, p))
    ensures mask.Some? ==> forall p :: InImage(src, p) && !mask.value[p.y][p.x] ==> At(dst, p) == At(src, p)
  {
    var map_, value, sizes := FirstPass(src, mask, w, conn);
    ghost var g := PolygonsOf(conn, Masked(src, mask, w), w);
    ghost var target, best;
    dst, target, best := Passes(src, mask, w, threshold, conn, map_, value, sizes, g);
    OutputIsSieved(conn, src, Masked(src, mask, w), w, sizes, best, target, threshold, dst);
    forall p | InImage(src, p) ensures mask.Some? && !mask.value[p.y][p.x] ==> At(dst, p) == At(src, p) {
      MaskedStays(src, mask, w, Scanned, conn, threshold, p, At(dst, p));
    }
  }
}
