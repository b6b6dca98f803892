/** The polygon enumerator: labels an image one line at a time, with its id map held in two
    buffers that grow together. */
module Enumerator {
  import opened Common
  import opened Forest
  import opened Regions
  import opened Labelling

  class PolygonEnumerator {
    const rule: Rule
    var polyIdMap: array<nat>
    var polyValue: array<int>
    var nextPolygonId: nat
    var polyAlloc: nat

    // The buffers are the ones they were, or new ones.
    twostate predicate Regrown()
      reads this
    {
      && (polyIdMap == old(polyIdMap) || fresh(polyIdMap))
      && (polyValue == old(polyValue) || fresh(polyValue))
    }

    ghost predicate Valid()
      reads this, polyIdMap, polyValue
    {
      && polyIdMap.Length == polyValue.Length == polyAlloc && nextPolygonId <= polyAlloc
      && polyIdMap as object != polyValue as object
      && IsForest(polyIdMap[..nextPolygonId])
    }

    // The labels handed out so far.
    ghost function Current(): (l: Labels)
      requires Valid()
      reads this, polyIdMap, polyValue
      ensures GoodLabels(l) && |l.parent| == nextPolygonId
    {
      Labels(polyIdMap[..nextPolygonId], polyValue[..nextPolygonId])
    }

    constructor (rule: Rule)
      ensures Valid() && fresh(polyIdMap) && fresh(polyValue) && this.rule == rule && Current() == NO_LABELS
    {
      this.rule := rule;
      polyIdMap, polyValue := new nat[0], new int[0];
      nextPolygonId, polyAlloc := 0, 0;
      new;
      EmptyIsForest();
      assert polyIdMap[..0] == [];
    }

    method Clear()
      modifies this
      ensures Valid() && Regrown() && Current() == NO_LABELS
    {
      polyIdMap, polyValue := new nat[0], new int[0];
      nextPolygonId, polyAlloc := 0, 0;
      EmptyIsForest();
      assert polyIdMap[..0] == [];
    }

    method MergePolygon(srcId: nat, dstId: nat)
      requires Valid() && srcId < nextPolygonId && dstId < nextPolygonId
      modifies polyIdMap
      ensures Valid()
      ensures Current() == old(Current()).(parent := Join(old(Current()).parent, srcId, dstId))
    {
      ghost var p := polyIdMap[..nextPolygonId];
      var src: nat, dst: nat := srcId, dstId;
      while polyIdMap[dst] != dst
        invariant dst < nextPolygonId && Root(p, dst) == Root(p, dstId)
        decreases Depth(p)[dst]
      {
        assert p[dst] == polyIdMap[dst];
        dst := polyIdMap[dst];
      }
      while polyIdMap[src] != src
        invariant src < nextPolygonId && Root(p, src) == Root(p, srcId)
        decreases Depth(p)[src]
      {
        assert p[src] == polyIdMap[src];
        src := polyIdMap[src];
      }
      assert p[dst] == dst && p[src] == src;
      JoinIsForest(p, srcId, dstId);
      if src == dst {
        assert Join(p, srcId, dstId) == p;
        return;
      }
      polyIdMap[src] := dst;
      assert polyIdMap[..nextPolygonId] == Join(p, srcId, dstId);
    }

    method NewPolygon(value: int) returns (polyId: nat)
      requires Valid()
      modifies this, polyIdMap, polyValue
      ensures Valid() && Regrown()
      ensures polyId == old(nextPolygonId)
      ensures Current() == Labels(old(Current()).parent + [polyId], old(Current()).value + [value])
    {
      polyId := nextPolygonId;
      ghost var l := Current();
      if nextPolygonId >= polyAlloc {
        Grow();
      }
      assert Current() == l;
      nextPolygonId := nextPolygonId + 1;
      polyIdMap[polyId] := polyId;
      polyValue[polyId] := value;
      ExtendRoot(l.parent);
      assert polyIdMap[..nextPolygonId] == l.parent + [polyId];
      assert polyValue[..nextPolygonId] == l.value + [value];
    }

    // Both buffers are reallocated with room for more ids.
    method Grow()
      requires Valid()
      modifies this
      ensures Valid() && Regrown()
      ensures nextPolygonId == old(nextPolygonId) < polyAlloc && Current() == old(Current())
    {
      var size := polyAlloc * 2 + 20;
      var newMap, newValue := new nat[size], new int[size];
      forall i | 0 <= i < nextPolygonId { newMap[i] := polyIdMap[i]; }
      forall i | 0 <= i < nextPolygonId { newValue[i] := polyValue[i]; }
      assert newMap[..nextPolygonId] == polyIdMap[..nextPolygonId];
      assert newValue[..nextPolygonId] == polyValue[..nextPolygonId];
      polyAlloc, polyIdMap, polyValue := size, newMap, newValue;
      assert polyIdMap[..nextPolygonId] == old(polyIdMap[..nextPolygonId]);
    }

    /** Every id is made to point straight at the root of its polygon. */
    method CompleteMerges()
      requires Valid()
      modifies polyIdMap
      ensures Valid() && Current() == old(Current()).(parent := Flat(old(Current()).parent))
    {
      ghost var p, d := Current().parent, Depth(Current().parent);
      for i := 0 to nextPolygonId
        invariant Valid() && SameRoots(polyIdMap[..nextPolygonId], p, d)
        invariant forall j :: 0 <= j < i ==> polyIdMap[..nextPolygonId][j] == Root(p, j)
      {
        FollowToRoot(i, p, d);
      }
      assert polyIdMap[..nextPolygonId] == Flat(p);
    }

    // Makes id i point straight at its root, halving the way to it step by step.
    method FollowToRoot(i: nat, ghost p: seq<nat>, ghost d: seq<nat>)
      requires Valid() && i < nextPolygonId && IsForest(p) && SameRoots(polyIdMap[..nextPolygonId], p, d)
      modifies polyIdMap
      ensures Valid() && SameRoots(polyIdMap[..nextPolygonId], p, d)
      ensures polyIdMap[..nextPolygonId] == old(polyIdMap[..nextPolygonId])[i := Root(p, i)]
    {
      ghost var before := polyIdMap[..nextPolygonId];
      while polyIdMap[i] != polyIdMap[polyIdMap[i]]
        invariant Valid() && SameRoots(polyIdMap[..nextPolygonId], p, d)
        invariant polyIdMap[..nextPolygonId] == before[i := polyIdMap[..nextPolygonId][i]]
        decreases d[polyIdMap[..nextPolygonId][i]]
      {
        ghost var q := polyIdMap[..nextPolygonId];
        HalveKeepsRoots(q, d, i);
        polyIdMap[i] := polyIdMap[polyIdMap[i]];
        assert polyIdMap[..nextPolygonId] == q[i := q[q[i]]];
      }
      PointsAtRoot(polyIdMap[..nextPolygonId], p, d, i);
    }

    // The id of pixel i of a line that is not the first one.
    method ScanBelow(above: Above, thisVal: seq<int>, thisId: seq<nat>, ghost r: Line) returns (id: nat)
      requires Valid() && r == Line(thisId, Current()) && |thisId| < |thisVal|
      requires GoodAbove(Some(above), |thisVal|, Current()) && IdsIn(thisId, Current())
      modifies this, polyIdMap, polyValue
      ensures Valid() && Regrown()
      ensures Line(thisId + [id], Current()) == ScanPixel(rule, Some(above), thisVal, r)
    {
      var lastVal, lastId, i := above.vals, above.ids, |thisId|;
      if i > 0 && rule.Same(thisVal[i], thisVal[i - 1]) {
        id := thisId[i - 1];
        if rule.Same(lastVal[i], thisVal[i]) {
          if polyIdMap[lastId[i]] != polyIdMap[id] {
            MergePolygon(lastId[i], id);
          } else {
            SameParentJoin(r.labels.parent, lastId[i], id);
          }
        }
      } else if rule.Same(lastVal[i], thisVal[i]) {
        id := lastId[i];
      } else if i > 0 && rule.connectedness == 8 && rule.Same(lastVal[i - 1], thisVal[i]) {
        id := lastId[i - 1];
      } else if i < |thisVal| - 1 && rule.connectedness == 8 && rule.Same(lastVal[i + 1], thisVal[i]) {
        id := lastId[i + 1];
      } else {
        id := NewPolygon(thisVal[i]);
      }
    }

    // The id of pixel i of the first line.
    method ScanFirst(thisVal: seq<int>, thisId: seq<nat>, ghost r: Line) returns (id: nat)
      requires Valid() && r == Line(thisId, Current()) && |thisId| < |thisVal| && IdsIn(thisId, Current())
      modifies this, polyIdMap, polyValue
      ensures Valid() && Regrown()
      ensures Line(thisId + [id], Current()) == ScanPixel(rule, None, thisVal, r)
    {
      var i := |thisId|;
      if i == 0 || !rule.Same(thisVal[i], thisVal[i - 1]) {
        id := NewPolygon(thisVal[i]);
      } else {
        id := thisId[i - 1];
      }
    }

    // The first line of an image.
    method ProcessFirstLine(thisVal: seq<int>) returns (thisId: seq<nat>)
      requires Valid()
      modifies this, polyIdMap, polyValue
      ensures Valid() && Regrown()
      ensures Line(thisId, Current()) == ScanLine(rule, None, thisVal, old(Current()), |thisVal|)
    {
      thisId := [];
      for i := 0 to |thisVal|
        invariant Valid() && Regrown() && |thisId| == i
        invariant Line(thisId, Current()) == ScanLine(rule, None, thisVal, old(Current()), i)
      {
        var id := ScanFirst(thisVal, thisId, ScanLine(rule, None, thisVal, old(Current()), i));
        thisId := thisId + [id];
      }
    }

    /** Assigns ids to the pixels of one line, given the values and ids of the line above. */
    method ProcessLine(above: Option<Above>, thisVal: seq<int>) returns (thisId: seq<nat>)
      requires Valid() && GoodAbove(above, |thisVal|, Current())
      modifies this, polyIdMap, polyValue
      ensures Valid() && Regrown()
      ensures Line(thisId, Current()) == ScanLine(rule, above, thisVal, old(Current()), |thisVal|)
    {
      if above.None? {
        thisId := ProcessFirstLine(thisVal);
        return;
      }
      thisId := [];
      for i := 0 to |thisVal|
        invariant Valid() && Regrown() && |thisId| == i && GoodAbove(above, |thisVal|, Current())
        invariant Line(thisId, Current()) == ScanLine(rule, above, thisVal, old(Current()), i)
      {
        var id := ScanBelow(above.value, thisVal, thisId, ScanLine(rule, above, thisVal, old(Current()), i));
        thisId := thisId + [id];
      }
    }
  }

  // The roots are those of p, and the depths those of d at most.
  ghost predicate SameRoots(q: seq<nat>, p: seq<nat>, d: seq<nat>)
    requires IsForest(p)
  {
    && |q| == |p| && DepthOf(q, d) && IsForest(q)
    && forall j :: 0 <= j < |q| ==> Root(q, j) == Root(p, j)
  }

  lemma PointsAtRoot(q: seq<nat>, p: seq<nat>, d: seq<nat>, i: nat)
    requires IsForest(p) && SameRoots(q, p, d) && i < |q| && q[i] < |q| && q[q[i]] == q[i]
    ensures q[i] == Root(p, i)
  {
    assert Root(q, i) == q[i];
  }

  // Ids with a common parent are in one polygon already.
  lemma SameParentJoin(p: seq<nat>, src: nat, dst: nat)
    requires IsForest(p) && src < |p| && dst < |p| && p[src] == p[dst]
    ensures Join(p, src, dst) == p
  {
    assert Root(p, src) == Root(p, p[src]) && Root(p, dst) == Root(p, p[dst]);
  }
}
