/** The second pass of the polygonizer: edges are collected polygon by polygon, and polygons that are
    complete are turned into rings and given away early. */
module Polygonize {
  import opened Common
  import opened Regions
  import opened Outlines
  import opened Polygons
  import opened Borders

  /** A polygon that has been given away: its value and its rings. */
  datatype Feature = Feature(value: int, rings: seq<Chain>)

  class Collector {
    const idMap: seq<nat>
    const polyValue: seq<int>
    const rule: Rule
    const marker: Option<int>
    var polys: seq<RPolygon?>
    var features: seq<Feature>
    ghost var whose: seq<nat>
    ghost var done: set<nat>

    ghost function Objects(): set<RPolygon?> reads this {
      set k | 0 <= k < |polys| && polys[k] != null :: polys[k]
    }

    ghost predicate Valid()
      reads this, Objects()
    {
      && |polys| == |idMap| == |polyValue|
      && (forall k :: 0 <= k < |idMap| ==> idMap[k] < |polys|)
      && (forall k :: 0 <= k < |polys| && polys[k] != null ==> polys[k].Valid() && polys[k].polyValue == polyValue[k])
      && (forall i, k :: 0 <= i < k < |polys| && polys[i] != null ==> polys[i] != polys[k])
    }

    ghost function DraftOf(p: RPolygon?): Draft
      reads p
    {
      if p == null then NO_DRAFT else Draft(true, p.Edges(), p.lastLineUpdated)
    }

    /** What has been collected of every polygon. */
    ghost function Drafts(): (v: seq<Draft>)
      reads this, Objects()
      ensures |v| == |polys|
    {
      seq(|polys|, k requires 0 <= k < |polys| reads this, Objects() => DraftOf(polys[k]))
    }

    // Polygons are added or taken away, but no other object takes part.
    twostate predicate Renewed()
      reads this
    {
      forall p :: p in Objects() ==> p in old(Objects()) || fresh(p)
    }

    constructor (rule: Rule, marker: Option<int>, idMap: seq<nat>, polyValue: seq<int>)
      requires |idMap| == |polyValue| && forall k :: 0 <= k < |idMap| ==> idMap[k] < |idMap|
      ensures Valid() && Objects() == {} && |polys| == |idMap|
      ensures this.rule == rule && this.marker == marker && this.idMap == idMap && this.polyValue == polyValue
      ensures forall k :: 0 <= k < |idMap| ==> Drafts()[k] == NO_DRAFT
      ensures features == [] && whose == [] && done == {}
    {
      this.rule, this.marker, this.idMap, this.polyValue := rule, marker, idMap, polyValue;
      polys := seq(|idMap|, _ => null);
      features, whose, done := [], [], {};
    }

    // Polygon k comes into being with its first edge.
    method Create(k: nat)
      requires Valid() && k < |polys| && polys[k] == null
      modifies this`polys
      ensures Valid() && Renewed() && polys[k] != null && |polys| == |old(polys)|
      ensures Drafts() == old(Drafts())[k := NO_DRAFT.(present := true)]
    {
      var p := new RPolygon(polyValue[k]);
      polys := polys[k := p];
    }

    method Extend(k: nat, a: Vertex, b: Vertex)
      requires Valid() && k < |polys| && polys[k] != null && IsUnit(a, b)
      modifies polys[k]
      ensures Valid()
      ensures Drafts() == old(Drafts())[k := AddEdge(old(Drafts())[k], UnitEdge(a, b), Max(a.y, b.y))]
    {
      polys[k].AddSegment(a, b);
    }

    // Adds an edge to polygon k.
    method AddTo(k: nat, a: Vertex, b: Vertex)
      requires Valid() && k < |polys| && IsUnit(a, b)
      modifies this`polys, Objects()
      ensures Valid() && Renewed() && |polys| == |old(polys)|
      ensures Drafts() == old(Drafts())[k := AddEdge(old(Drafts())[k], UnitEdge(a, b), Max(a.y, b.y))]
    {
      if polys[k] == null { Create(k); }
      Extend(k, a, b);
    }

    // Adds an edge to the polygons on both sides of it, when they differ.
    method AddEdgeBetween(near: int, far: int, a: Vertex, b: Vertex)
      requires Valid() && -1 <= near < |polys| && -1 <= far < |polys| && IsUnit(a, b)
      modifies this`polys, Objects()
      ensures Valid() && Renewed() && |polys| == |old(polys)|
      ensures Drafts() == AddToBoth(old(Drafts()), near, far, UnitEdge(a, b), Max(a.y, b.y))
    {
      if near != far {
        if near != -1 { AddTo(near, a, b); }
        if far != -1 { AddTo(far, a, b); }
      }
    }

    function Mapped(id: int): (k: int)
      requires -1 <= id < |idMap|
    {
      if id == -1 then -1 else idMap[id]
    }

    /** Compares a pixel with those above and to the right of it, and collects the edges between
        different polygons.  The lines are padded with -1 at both ends. */
    method AddEdges(thisLine: seq<int>, lastLine: seq<int>, i: nat, j: nat)
      requires Valid() && |thisLine| == |lastLine| && i + 1 < |thisLine|
      requires forall x :: 0 <= x < |thisLine| ==> -1 <= thisLine[x] < |idMap| && -1 <= lastLine[x] < |idMap|
      modifies this`polys, Objects()
      ensures Valid() && Renewed() && |polys| == |old(polys)|
      ensures Drafts() == AfterPixel(old(Drafts()), Mapped(thisLine[i]), Mapped(lastLine[i]), Mapped(thisLine[i + 1]), i, j)
    {
      var thisId, rightId, previousId := Mapped(thisLine[i]), Mapped(thisLine[i + 1]), Mapped(lastLine[i]);
      AddEdgeBetween(thisId, previousId, Vertex(i - 1, j), Vertex(i, j));
      AddEdgeBetween(thisId, rightId, Vertex(i, j), Vertex(i, j + 1));
    }
 
    // Examines pixel i of a line.
    method AddPixel(thisLine: seq<int>, lastLine: seq<int>, i: nat, j: nat, ghost g: Plane, ghost steps: seq<seq<Draft>>)
      requires Valid() && LinesOf(g, idMap, thisLine, lastLine, j) && InRange(g, |polys|)
      requires i + 1 < |thisLine| == |steps| && AreSteps(steps, g, |polys|, j) && Drafts() == steps[i]
      modifies this`polys, Objects()
      ensures Valid() && Renewed() && |polys| == |old(polys)| && Drafts() == steps[i + 1]
    {
      LineShows(g, idMap, thisLine, lastLine, i, j);
      StepAt(steps, g, |polys|, j, i);
      AddEdges(thisLine, lastLine, i, j);
    }

    /** Examines all pixels of a line, the drafts going through the steps. */
    method AddLine(thisLine: seq<int>, lastLine: seq<int>, j: nat, ghost g: Plane, ghost steps: seq<seq<Draft>>)
      requires Valid() && LinesOf(g, idMap, thisLine, lastLine, j) && InRange(g, |polys|)
      requires |thisLine| == |steps| && AreSteps(steps, g, |polys|, j) && Drafts() == steps[0]
      modifies this`polys, Objects()
      ensures Valid() && Renewed() && |polys| == |old(polys)| && Drafts() == steps[|thisLine| - 1]
    {
      for i := 0 to |thisLine| - 1
        invariant Valid() && Renewed() && |polys| == |old(polys)| && Drafts() == steps[i]
      {
        AddPixel(thisLine, lastLine, i, j, g, steps);
      }
    }

    // The rings of polygon k.
    method Rings(k: nat, ghost g: Plane) returns (f: Feature)
      requires Valid() && k < |polys| && polys[k] != null && IsBorder(g, k, polys[k].Edges())
      modifies polys[k]
      ensures Valid() && Drafts() == old(Drafts()) && FeatureRight(g, k, polyValue[k], f)
    {
      BorderIsEven(g, k, polys[k].Edges());
      polys[k].Coalesce();
      f := Feature(polys[k].polyValue, polys[k].strings);
    }

    method Give(k: nat, f: Feature, ghost g: Plane)
      requires k < |polyValue| && Wanted(rule, marker, polyValue[k]) && FeatureRight(g, k, polyValue[k], f) && k !in done
      requires FeaturesRight(g, rule, marker, polyValue, features, whose, done)
      modifies this`features, this`whose, this`done
      ensures done == old(done) + {k} && FeaturesRight(g, rule, marker, polyValue, features, whose, done)
    {
      FeatureAdded(g, rule, marker, polyValue, features, whose, done, k, f);
      features, whose, done := features + [f], whose + [k], done + {k};
    }

    method Delete(k: nat)
      requires Valid() && k < |polys|
      modifies this`polys
      ensures Valid() && Objects() <= old(Objects()) && |polys| == |old(polys)| && Drafts() == old(Drafts())[k := NO_DRAFT]
    {
      polys := polys[k := null];
    }

    // Polygon k, being complete, is joined into rings and given away, unless it is masked.
    method Offer(k: nat, ghost g: Plane)
      requires Valid() && k < |polys| && polys[k] != null && IsBorder(g, k, polys[k].Edges()) && k !in done
      requires FeaturesRight(g, rule, marker, polyValue, features, whose, done)
      modifies this`features, this`whose, this`done, polys[k]
      ensures Valid() && Drafts() == old(Drafts())
      ensures done == old(done) + {k} && FeaturesRight(g, rule, marker, polyValue, features, whose, done)
    {
      if marker.None? || !rule.Same(polys[k].polyValue, marker.value) {
        var f := Rings(k, g);
        Give(k, f, g);
      } else {
        FeatureDropped(g, rule, marker, polyValue, features, whose, done, k);
        done := done + {k};
      }
    }

    /** Polygon k, being complete, is joined into rings and given away, or dropped when it is masked. */
    method Emit(k: nat, ghost g: Plane)
      requires Valid() && k < |polys| && polys[k] != null && IsBorder(g, k, polys[k].Edges()) && k !in done
      requires FeaturesRight(g, rule, marker, polyValue, features, whose, done)
      modifies this, Objects()
      ensures Valid() && Objects() <= old(Objects()) && |polys| == |old(polys)| && Drafts() == old(Drafts())[k := NO_DRAFT]
      ensures done == old(done) + {k} && FeaturesRight(g, rule, marker, polyValue, features, whose, done)
    {
      Offer(k, g);
      Delete(k);
    }

    // Polygon k is given away if no edge was added to it on line j or the line before.
    method FlushOne(k: nat, j: nat, ghost g: Plane)
      requires Valid() && k < |polys| && Contiguous(g)
      requires AllCollected(g, Drafts(), done, j + 1, 0) && FeaturesRight(g, rule, marker, polyValue, features, whose, done)
      modifies this, Objects()
      ensures Valid() && Objects() <= old(Objects()) && |polys| == |old(polys)|
      ensures AllCollected(g, Drafts(), done, j + 1, 0) && FeaturesRight(g, rule, marker, polyValue, features, whose, done)
    {
      if polys[k] != null && polys[k].lastLineUpdated < j - 1 {
        FlushedStays(g, Drafts(), done, k, j);
        Emit(k, g);
      }
    }

    /** Gives away the polygons among the first n that are complete. */
    method Flush(n: nat, j: nat, ghost g: Plane)
      requires Valid() && n <= |polys| && Contiguous(g)
      requires AllCollected(g, Drafts(), done, j + 1, 0) && FeaturesRight(g, rule, marker, polyValue, features, whose, done)
      modifies this, Objects()
      ensures Valid() && Objects() <= old(Objects()) && |polys| == |old(polys)|
      ensures AllCollected(g, Drafts(), done, j + 1, 0) && FeaturesRight(g, rule, marker, polyValue, features, whose, done)
    {
      for k := 0 to n
        invariant Valid() && Objects() <= old(Objects()) && |polys| == |old(polys)|
        invariant AllCollected(g, Drafts(), done, j + 1, 0) && FeaturesRight(g, rule, marker, polyValue, features, whose, done)
      {
        FlushOne(k, j, g);
      }
    }

    // Polygon k is given away after the last line.
    method FinishOne(k: nat, ghost g: Plane)
      requires Valid() && k < |polys|
      requires AllCollected(g, Drafts(), done, |g| + 1, 0) && FeaturesRight(g, rule, marker, polyValue, features, whose, done)
      modifies this, Objects()
      ensures Valid() && Objects() <= old(Objects()) && |polys| == |old(polys)|
      ensures Drafts() == old(Drafts())[k := NO_DRAFT]
      ensures AllCollected(g, Drafts(), done, |g| + 1, 0) && FeaturesRight(g, rule, marker, polyValue, features, whose, done)
    {
      if polys[k] != null {
        RestStays(g, Drafts(), done, k);
        Emit(k, g);
      }
    }

    /** Gives away all that is left. */
    method Finish(ghost g: Plane)
      requires Valid()
      requires AllCollected(g, Drafts(), done, |g| + 1, 0) && FeaturesRight(g, rule, marker, polyValue, features, whose, done)
      modifies this, Objects()
      ensures AllGiven(g, rule, marker, polyValue, features, whose)
    {
      for k := 0 to |polys|
        invariant Valid() && Objects() <= old(Objects()) && |polys| == |old(polys)|
        invariant AllCollected(g, Drafts(), done, |g| + 1, 0) && FeaturesRight(g, rule, marker, polyValue, features, whose, done)
        invariant forall i :: 0 <= i < k ==> Drafts()[i] == NO_DRAFT
      {
        FinishOne(k, g);
      }
      NothingLeft(g, Drafts(), done, rule, marker, polyValue, features, whose);
    }
  }

  // What is left when all lines are over is complete.
  lemma RestStays(g: Plane, v: seq<Draft>, done: set<nat>, k: nat)
    requires AllCollected(g, v, done, |g| + 1, 0) && k < |v| && v[k].present
    ensures k !in done && IsBorder(g, k, v[k].edges)
    ensures AllCollected(g, v[k := NO_DRAFT], done + {k}, |g| + 1, 0)
  {
    assert Collected(g, k, v[k], k in done, |g| + 1, 0, false);
    LastIsComplete(g, k, v[k], k in done);
  }

  /** Every polygon that is not masked is given away once: one is masked when its value equals that of
      the marker, within the tolerance. */
  ghost predicate AllGiven(g: Plane, rule: Rule, marker: Option<int>, value: seq<int>, features: seq<Feature>, whose: seq<nat>) {
    && |features| == |whose|
    && (forall i :: 0 <= i < |whose| ==> whose[i] < |value| && FeatureRight(g, whose[i], value[whose[i]], features[i]))
    && (forall i, k :: 0 <= i < k < |whose| ==> whose[i] != whose[k])
    && (forall k: nat :: k in whose <==>
          k < |value| && HasPixel(g, k) && !(marker.Some? && 0 - rule.tolerance <= value[k] - marker.value <= rule.tolerance))
  }

  lemma NothingLeft(g: Plane, v: seq<Draft>, done: set<nat>, rule: Rule, marker: Option<int>, value: seq<int>,
                    features: seq<Feature>, whose: seq<nat>)
    requires AllCollected(g, v, done, |g| + 1, 0) && |v| == |value| && forall k :: 0 <= k < |v| ==> !v[k].present
    requires FeaturesRight(g, rule, marker, value, features, whose, done)
    ensures AllGiven(g, rule, marker, value, features, whose)
  {
    forall k: nat | k < |v| ensures k in done <==> HasPixel(g, k) {
      assert Collected(g, k, v[k], k in done, |g| + 1, 0, false);
      LastIsComplete(g, k, v[k], k in done);
    }
  }

  lemma FeatureAdded(g: Plane, rule: Rule, marker: Option<int>, value: seq<int>, features: seq<Feature>, whose: seq<nat>,
                     done: set<nat>, k: nat, f: Feature)
    requires FeaturesRight(g, rule, marker, value, features, whose, done) && k !in done && k < |value|
    requires FeatureRight(g, k, value[k], f) && Wanted(rule, marker, value[k])
    ensures FeaturesRight(g, rule, marker, value, features + [f], whose + [k], done + {k})
  {
    assert forall i :: 0 <= i < |whose| ==> whose[i] in whose;
  }

  lemma FeatureDropped(g: Plane, rule: Rule, marker: Option<int>, value: seq<int>, features: seq<Feature>, whose: seq<nat>,
                       done: set<nat>, k: nat)
    requires FeaturesRight(g, rule, marker, value, features, whose, done) && k !in done && k < |value|
    requires !Wanted(rule, marker, value[k])
    ensures FeaturesRight(g, rule, marker, value, features, whose, done + {k})
  {
  }

  // Flushing a polygon leaves everything collected.
  lemma FlushedStays(g: Plane, v: seq<Draft>, done: set<nat>, k: nat, j: nat)
    requires AllCollected(g, v, done, j + 1, 0) && Contiguous(g) && k < |v| && v[k].present && v[k].updated < j - 1
    ensures k !in done && IsBorder(g, k, v[k].edges)
    ensures AllCollected(g, v[k := NO_DRAFT], done + {k}, j + 1, 0)
  {
    assert Collected(g, k, v[k], k in done, j + 1, 0, false);
    FlushedIsComplete(g, k, v[k], j);
  }

  predicate Wanted(rule: Rule, marker: Option<int>, value: int) { marker.None? || !rule.Same(value, marker.value) }

  /** A feature is right when its rings are closed and run along the border of its polygon, along
      every edge of it once. */
  ghost predicate FeatureRight(g: Plane, k: nat, value: int, f: Feature) {
    f.value == value && GoodChains(f.rings) && AllClosed(f.rings, |f.rings|) && IsBorder(g, k, AllEdges(f.rings))
  }

  ghost predicate FeaturesRight(g: Plane, rule: Rule, marker: Option<int>, value: seq<int>, features: seq<Feature>, whose: seq<nat>,
                                done: set<nat>)
  {
    && |features| == |whose|
    && (forall i :: 0 <= i < |whose| ==> whose[i] < |value| && FeatureRight(g, whose[i], value[whose[i]], features[i]))
    && (forall i, k :: 0 <= i < k < |whose| ==> whose[i] != whose[k])
    && (forall k: nat :: k in whose <==> k in done && k < |value| && Wanted(rule, marker, value[k]))
  }

  // All polygons are collected as far as the second pass has come.
  ghost predicate AllCollected(g: Plane, v: seq<Draft>, done: set<nat>, j: int, i: int) {
    forall k :: 0 <= k < |v| ==> Collected(g, k, v[k], k in done, j, i, false)
  }

  predicate InRange(g: Plane, n: nat) {
    forall y, x :: 0 <= y < |g| && 0 <= x < |g[y]| ==> g[y][x] < n
  }

  // The ids of a line, padded with -1 on both sides, or a line of -1.
  ghost predicate PaddedLine(g: Plane, idMap: seq<nat>, line: seq<int>, j: int) {
    forall i :: 0 <= i < |line| ==> -1 <= line[i] < |idMap| && (if line[i] == -1 then -1 else idMap[line[i]]) == PolyAt(g, i - 1, j)
  }

  ghost predicate LinesOf(g: Plane, idMap: seq<nat>, thisLine: seq<int>, lastLine: seq<int>, j: int) {
    && |thisLine| == |lastLine| >= 2 && PaddedLine(g, idMap, thisLine, j) && PaddedLine(g, idMap, lastLine, j - 1)
  }

  // Pixel i of a padded line, and those above and to the right of it.
  lemma LineShows(g: Plane, idMap: seq<nat>, thisLine: seq<int>, lastLine: seq<int>, i: nat, j: nat)
    requires LinesOf(g, idMap, thisLine, lastLine, j) && i + 1 < |thisLine|
    ensures -1 <= thisLine[i] < |idMap| && -1 <= lastLine[i] < |idMap| && -1 <= thisLine[i + 1] < |idMap|
    ensures (if thisLine[i] == -1 then -1 else idMap[thisLine[i]]) == PolyAt(g, i - 1, j)
    ensures (if lastLine[i] == -1 then -1 else idMap[lastLine[i]]) == PolyAt(g, i - 1, j - 1)
    ensures (if thisLine[i + 1] == -1 then -1 else idMap[thisLine[i + 1]]) == PolyAt(g, i, j)
  {
  }

  lemma PolyAtInRange(g: Plane, n: nat, x: int, y: int)
    requires InRange(g, n)
    ensures -1 <= PolyAt(g, x, y) < n
  {
  }

  // The drafts after pixel i of line j.
  function NextPixel(g: Plane, v: seq<Draft>, j: int, i: int): (r: seq<Draft>)
    requires InRange(g, |v|)
    ensures |r| == |v|
  {
    PolyAtInRange(g, |v|, i - 1, j);
    PolyAtInRange(g, |v|, i - 1, j - 1);
    PolyAtInRange(g, |v|, i, j);
    AfterPixel(v, PolyAt(g, i - 1, j), PolyAt(g, i - 1, j - 1), PolyAt(g, i, j), i, j)
  }

  // The drafts before the pixels of a line and after the last of them.
  ghost predicate AreSteps(steps: seq<seq<Draft>>, g: Plane, n: nat, j: int)
    requires InRange(g, n)
  {
    && |steps| > 0 && (forall i :: 0 <= i < |steps| ==> |steps[i]| == n)
    && forall i {:trigger NextPixel(g, steps[i], j, i)} :: 0 <= i < |steps| - 1 ==> steps[i + 1] == NextPixel(g, steps[i], j, i)
  }

  lemma StepAt(steps: seq<seq<Draft>>, g: Plane, n: nat, j: int, i: nat)
    requires InRange(g, n) && AreSteps(steps, g, n, j) && i < |steps| - 1
    ensures steps[i + 1] == NextPixel(g, steps[i], j, i)
  {
  }

  lemma StepsGrow(steps: seq<seq<Draft>>, g: Plane, n: nat, j: int, next: seq<Draft>)
    requires InRange(g, n) && AreSteps(steps, g, n, j) && next == NextPixel(g, steps[|steps| - 1], j, |steps| - 1)
    ensures AreSteps(steps + [next], g, n, j)
  {
    var more := steps + [next];
    forall i | 0 <= i < |more| - 1 ensures more[i + 1] == NextPixel(g, more[i], j, i) {
      if i < |steps| - 1 { StepAt(steps, g, n, j, i); }
    }
  }

  // Line j, from given drafts on.
  lemma {:induction false} StepsFrom(g: Plane, v: seq<Draft>, j: int, n: nat) returns (steps: seq<seq<Draft>>)
    requires InRange(g, |v|) && n > 0
    ensures |steps| == n && AreSteps(steps, g, |v|, j) && steps[0] == v
  {
    if n == 1 {
      steps := [v];
    } else {
      var before := StepsFrom(g, v, j, n - 1);
      var next := NextPixel(g, before[n - 2], j, n - 2);
      StepsGrow(before, g, |v|, j, next);
      steps := before + [next];
    }
  }

  lemma NextCollected(g: Plane, v: seq<Draft>, done: bool, j: int, i: int, k: nat)
    requires InRange(g, |v|) && k < |v| && Collected(g, k, v[k], done, j, i, false)
    ensures Collected(g, k, NextPixel(g, v, j, i)[k], done, j, i + 1, false)
  {
    PolyAtInRange(g, |v|, i - 1, j);
    PolyAtInRange(g, |v|, i - 1, j - 1);
    PolyAtInRange(g, |v|, i, j);
    PixelCollected(g, k, v, done, i, j);
  }

  lemma {:induction false} PixelsCollected(g: Plane, steps: seq<seq<Draft>>, n: nat, done: bool, j: int, i: nat, k: nat)
    requires InRange(g, n) && AreSteps(steps, g, n, j) && i < |steps| && k < n
    requires Collected(g, k, steps[0][k], done, j, 0, false)
    ensures Collected(g, k, steps[i][k], done, j, i, false)
  {
    if i > 0 {
      PixelsCollected(g, steps, n, done, j, i - 1, k);
      StepAt(steps, g, n, j, i - 1);
      NextCollected(g, steps[i - 1], done, j, i - 1, k);
    }
  }

  /** A line of the second pass collects all edges above and to the right of its pixels. */
  lemma LineIsCollected(g: Plane, w: nat, steps: seq<seq<Draft>>, n: nat, done: set<nat>, j: int)
    requires InRange(g, n) && AreSteps(steps, g, n, j) && |steps| == w + 2 && forall y :: 0 <= y < |g| ==> |g[y]| == w
    requires AllCollected(g, steps[0], done, j, 0)
    ensures AllCollected(g, steps[w + 1], done, j + 1, 0)
  {
    forall k | 0 <= k < n ensures Collected(g, k, steps[w + 1][k], k in done, j + 1, 0, false) {
      PixelsCollected(g, steps, n, k in done, j, w + 1, k);
      LineCollected(g, k, steps[w + 1][k], k in done, j, w);
    }
  }
}
