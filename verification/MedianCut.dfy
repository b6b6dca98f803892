/** The median cut: boxes of colours are split until there are enough of them. */
module MedianCut {
  import opened Common
  import opened ColorBoxes

  function Cell(c: Color): Box { Box(c, c, 0) }

  ghost predicate IsCube(h: array3<int>) { h.Length0 == h.Length1 == h.Length2 == B_LEN }

  /** The histogram tells the number of pixels of every colour. */
  ghost predicate Recorded(px: seq<Color>, h: array3<int>)
    requires IsCube(h)
    reads h
  {
    forall r, g, b :: 0 <= r < B_LEN && 0 <= g < B_LEN && 0 <= b < B_LEN ==> h[r, g, b] == Count(px, Cell(Color(r, g, b)))
  }

  // ----- planes of a box

  // The other two axes.
  function Second(axis: Axis): Axis { if axis == Red then Green else Red }
  function Third(axis: Axis): Axis { if axis == Blue then Green else Blue }

  // The part of a plane that comes before position (u, v), and the cell there.
  function Before(plane: Box, axis: Axis, u: int): Box { plane.UpTo(Second(axis), u - 1) }
  function InRow(plane: Box, axis: Axis, u: int, v: int): Box { plane.Plane(Second(axis), u).UpTo(Third(axis), v - 1) }
  function CellAt(plane: Box, axis: Axis, u: int, v: int): Color { plane.lo.With(Second(axis), u).With(Third(axis), v) }

  // One cell more of a row, and one row more of a plane.
  lemma RowGrows(px: seq<Color>, plane: Box, axis: Axis, u: int, v: int)
    requires plane.lo.Get(axis) == plane.hi.Get(axis) && plane.lo.Get(Third(axis)) <= v <= plane.hi.Get(Third(axis))
    ensures Count(px, InRow(plane, axis, u, v + 1)) == Count(px, InRow(plane, axis, u, v)) + Count(px, Cell(CellAt(plane, axis, u, v)))
  {
    var row := InRow(plane, axis, u, v + 1);
    CountCut(px, row, Third(axis), v);
    assert row.UpTo(Third(axis), v - 1) == InRow(plane, axis, u, v);
    CountSame(px, row.From(Third(axis), v), Cell(CellAt(plane, axis, u, v)));
  }

  lemma PlaneGrows(px: seq<Color>, plane: Box, axis: Axis, u: int)
    requires plane.lo.Get(Second(axis)) <= u <= plane.hi.Get(Second(axis))
    ensures Count(px, Before(plane, axis, u + 1))
         == Count(px, Before(plane, axis, u)) + Count(px, InRow(plane, axis, u, plane.hi.Get(Third(axis)) + 1))
  {
    var part := Before(plane, axis, u + 1);
    CountCut(px, part, Second(axis), u);
    assert part.UpTo(Second(axis), u - 1) == Before(plane, axis, u);
    assert part.From(Second(axis), u) == InRow(plane, axis, u, plane.hi.Get(Third(axis)) + 1);
  }

  lemma PlaneStarts(px: seq<Color>, plane: Box, axis: Axis)
    ensures Count(px, Before(plane, axis, plane.lo.Get(Second(axis)))) == 0
  {
    CountEmpty(px, Before(plane, axis, plane.lo.Get(Second(axis))));
  }

  lemma RowStarts(px: seq<Color>, plane: Box, axis: Axis, u: int)
    ensures Count(px, InRow(plane, axis, u, plane.lo.Get(Third(axis)))) == 0
  {
    CountEmpty(px, InRow(plane, axis, u, plane.lo.Get(Third(axis))));
  }

  lemma PlaneEnds(plane: Box, axis: Axis)
    ensures Before(plane, axis, plane.hi.Get(Second(axis)) + 1) == plane
  {
  }

  // The histogram entry of a cell of a plane.
  method EntryAt(h: array3<int>, plane: Box, axis: Axis, u: int, v: int, ghost px: seq<Color>) returns (n: int)
    requires IsCube(h) && Recorded(px, h) && InCube(plane) && plane.lo.Get(axis) == plane.hi.Get(axis)
    requires plane.lo.Get(Second(axis)) <= u <= plane.hi.Get(Second(axis)) && plane.lo.Get(Third(axis)) <= v <= plane.hi.Get(Third(axis))
    ensures n == Count(px, Cell(CellAt(plane, axis, u, v))) && plane.Has(CellAt(plane, axis, u, v))
  {
    var c := CellAt(plane, axis, u, v);
    n := h[c.r, c.g, c.b];
  }

  // The number of pixels in one row of a plane.
  method SumRow(h: array3<int>, plane: Box, axis: Axis, u: int, ghost px: seq<Color>) returns (sum: int)
    requires IsCube(h) && Recorded(px, h) && InCube(plane) && plane.lo.Get(axis) == plane.hi.Get(axis)
    requires plane.lo.Get(Second(axis)) <= u <= plane.hi.Get(Second(axis))
    ensures sum == Count(px, InRow(plane, axis, u, plane.hi.Get(Third(axis)) + 1))
  {
    sum := 0;
    RowStarts(px, plane, axis, u);
    for v := plane.lo.Get(Third(axis)) to plane.hi.Get(Third(axis)) + 1
      invariant sum == Count(px, InRow(plane, axis, u, v))
    {
      RowGrows(px, plane, axis, u, v);
      var n := EntryAt(h, plane, axis, u, v, px);
      sum := sum + n;
    }
  }

  /** The number of pixels in one plane of a box. */
  method SumPlane(h: array3<int>, box: Box, axis: Axis, m: int, ghost px: seq<Color>) returns (sum: int)
    requires IsCube(h) && Recorded(px, h) && InCube(box) && box.lo.Get(axis) <= m <= box.hi.Get(axis)
    ensures sum == Count(px, box.Plane(axis, m))
  {
    sum := 0;
    var plane := box.Plane(axis, m);
    PlaneStarts(px, plane, axis);
    for u := plane.lo.Get(Second(axis)) to plane.hi.Get(Second(axis)) + 1
      invariant sum == Count(px, Before(plane, axis, u))
    {
      PlaneGrows(px, plane, axis, u);
      var n := SumRow(h, plane, axis, u, px);
      sum := sum + n;
    }
    PlaneEnds(plane, axis);
  }

  // Whether a row of a plane has any pixel.
  method RowHasColor(h: array3<int>, plane: Box, axis: Axis, u: int, ghost px: seq<Color>) returns (found: bool)
    requires IsCube(h) && Recorded(px, h) && InCube(plane) && plane.lo.Get(axis) == plane.hi.Get(axis)
    requires plane.lo.Get(Second(axis)) <= u <= plane.hi.Get(Second(axis))
    ensures !found ==> Count(px, InRow(plane, axis, u, plane.hi.Get(Third(axis)) + 1)) == 0
    ensures found ==> Touches(px, plane, axis, plane.lo.Get(axis))
  {
    RowStarts(px, plane, axis, u);
    for v := plane.lo.Get(Third(axis)) to plane.hi.Get(Third(axis)) + 1
      invariant Count(px, InRow(plane, axis, u, v)) == 0
    {
      RowGrows(px, plane, axis, u, v);
      var n := EntryAt(h, plane, axis, u, v, px);
      if n != 0 {
        CellInBox(px, plane, CellAt(plane, axis, u, v), axis, plane.lo.Get(axis));
        return true;
      }
    }
    found := false;
  }

  /** Whether one plane of a box has any pixel; the search stops at the first one. */
  method PlaneHasColor(h: array3<int>, box: Box, axis: Axis, m: int, ghost px: seq<Color>) returns (found: bool)
    requires IsCube(h) && Recorded(px, h) && InCube(box) && box.lo.Get(axis) <= m <= box.hi.Get(axis)
    ensures found <==> Touches(px, box, axis, m)
  {
    var plane := box.Plane(axis, m);
    TouchesPlane(px, box, axis, m);
    PlaneStarts(px, plane, axis);
    for u := plane.lo.Get(Second(axis)) to plane.hi.Get(Second(axis)) + 1
      invariant Count(px, Before(plane, axis, u)) == 0
    {
      PlaneGrows(px, plane, axis, u);
      var inRow := RowHasColor(h, plane, axis, u, px);
      if inRow {
        TouchesInPlane(px, box, axis, m);
        return true;
      }
    }
    PlaneEnds(plane, axis);
    found := false;
  }

  lemma TouchesInPlane(px: seq<Color>, box: Box, axis: Axis, m: int)
    requires box.lo.Get(axis) <= m <= box.hi.Get(axis) && Touches(px, box.Plane(axis, m), axis, m)
    ensures Touches(px, box, axis, m)
  {
    var i :| 0 <= i < |px| && box.Plane(axis, m).Has(px[i]);
    assert box.Has(px[i]);
  }

  lemma CellInBox(px: seq<Color>, box: Box, c: Color, axis: Axis, m: int)
    requires box.Has(c) && c.Get(axis) == m && Count(px, Cell(c)) > 0
    ensures Touches(px, box, axis, m)
  {
    CountPositive(px, Cell(c));
    var i :| 0 <= i < |px| && Cell(c).Has(px[i]);
    assert px[i] == c;
  }

  // ----- shrinking

  ghost predicate NonEmpty(px: seq<Color>, box: Box) { exists i :: 0 <= i < |px| && box.Has(px[i]) }

  // The planes before plane k have no pixel.
  ghost predicate NoneBefore(px: seq<Color>, box: Box, axis: Axis, k: int) {
    forall m :: box.lo.Get(axis) <= m < k ==> !Touches(px, box, axis, m)
  }

  ghost predicate NoneAfter(px: seq<Color>, box: Box, axis: Axis, k: int) {
    forall m :: k < m <= box.hi.Get(axis) ==> !Touches(px, box, axis, m)
  }

  lemma CutOffBelow(px: seq<Color>, box: Box, axis: Axis, k: int)
    requires NoneBefore(px, box, axis, k) && box.lo.Get(axis) <= k
    ensures SamePixels(px, box.From(axis, k), box) && Within(box.From(axis, k), box)
  {
    forall i | 0 <= i < |px| ensures box.From(axis, k).Has(px[i]) <==> box.Has(px[i]) {
      if box.Has(px[i]) { assert Touches(px, box, axis, px[i].Get(axis)); }
    }
  }

  lemma CutOffAbove(px: seq<Color>, box: Box, axis: Axis, k: int)
    requires NoneAfter(px, box, axis, k) && k <= box.hi.Get(axis)
    ensures SamePixels(px, box.UpTo(axis, k), box) && Within(box.UpTo(axis, k), box)
  {
    forall i | 0 <= i < |px| ensures box.UpTo(axis, k).Has(px[i]) <==> box.Has(px[i]) {
      if box.Has(px[i]) { assert Touches(px, box, axis, px[i].Get(axis)); }
    }
  }

  lemma TouchesSomewhere(px: seq<Color>, box: Box, axis: Axis) returns (m: int)
    requires NonEmpty(px, box)
    ensures box.lo.Get(axis) <= m <= box.hi.Get(axis) && Touches(px, box, axis, m)
  {
    var i :| 0 <= i < |px| && box.Has(px[i]);
    m := px[i].Get(axis);
  }

  // The first and the last plane with a pixel.
  method FirstPlane(h: array3<int>, box: Box, axis: Axis, ghost px: seq<Color>) returns (k: int)
    requires IsCube(h) && Recorded(px, h) && InCube(box) && NonEmpty(px, box)
    ensures box.lo.Get(axis) <= k <= box.hi.Get(axis) && Touches(px, box, axis, k) && NoneBefore(px, box, axis, k)
  {
    ghost var m := TouchesSomewhere(px, box, axis);
    k := box.lo.Get(axis);
    var found := PlaneHasColor(h, box, axis, k, px);
    while !found
      invariant box.lo.Get(axis) <= k <= m && NoneBefore(px, box, axis, k) && (found <==> Touches(px, box, axis, k))
      decreases m - k, !found
    {
      k := k + 1;
      found := PlaneHasColor(h, box, axis, k, px);
    }
  }

  method LastPlane(h: array3<int>, box: Box, axis: Axis, ghost px: seq<Color>) returns (k: int)
    requires IsCube(h) && Recorded(px, h) && InCube(box) && NonEmpty(px, box)
    ensures box.lo.Get(axis) <= k <= box.hi.Get(axis) && Touches(px, box, axis, k) && NoneAfter(px, box, axis, k)
  {
    ghost var m := TouchesSomewhere(px, box, axis);
    k := box.hi.Get(axis);
    var found := PlaneHasColor(h, box, axis, k, px);
    while !found
      invariant m <= k <= box.hi.Get(axis) && NoneAfter(px, box, axis, k) && (found <==> Touches(px, box, axis, k))
      decreases k - m, !found
    {
      k := k - 1;
      found := PlaneHasColor(h, box, axis, k, px);
    }
  }

  // A box that has lost planes without pixels along some axes.
  ghost predicate Shrunk(px: seq<Color>, box: Box, box': Box) {
    InCube(box') && SamePixels(px, box', box) && Within(box', box) && box'.total == box.total
  }

  lemma ShrunkTwice(px: seq<Color>, box: Box, box1: Box, box2: Box)
    requires Shrunk(px, box, box1) && Shrunk(px, box1, box2)
    ensures Shrunk(px, box, box2)
  {
    forall i | 0 <= i < |px| ensures box2.Has(px[i]) <==> box.Has(px[i]) {
      assert box1.Has(px[i]) <==> box.Has(px[i]);
    }
  }

  // The other axes are as they were.
  ghost predicate OnlyAlong(axis: Axis, box: Box, box': Box) {
    forall a :: a != axis ==> box'.lo.Get(a) == box.lo.Get(a) && box'.hi.Get(a) == box.hi.Get(a)
  }

  method ShrinkBelow(h: array3<int>, box: Box, axis: Axis, ghost px: seq<Color>) returns (box': Box)
    requires IsCube(h) && Recorded(px, h) && InCube(box) && NonEmpty(px, box)
    ensures Shrunk(px, box, box') && OnlyAlong(axis, box, box') && box'.hi.Get(axis) == box.hi.Get(axis)
    ensures Touches(px, box', axis, box'.lo.Get(axis))
  {
    box' := box;
    if box.Length(axis) > 0 {
      var k := FirstPlane(h, box, axis, px);
      CutOffBelow(px, box, axis, k);
      box' := box.From(axis, k);
      SamePixelsTouch(px, box', box, axis, k);
    } else {
      var m := TouchesSomewhere(px, box, axis);
    }
  }

  method ShrinkAbove(h: array3<int>, box: Box, axis: Axis, ghost px: seq<Color>) returns (box': Box)
    requires IsCube(h) && Recorded(px, h) && InCube(box) && NonEmpty(px, box) && Touches(px, box, axis, box.lo.Get(axis))
    ensures Shrunk(px, box, box') && OnlyAlong(axis, box, box') && TightAlong(px, box', axis)
  {
    box' := box;
    if box.Length(axis) > 0 {
      var k := LastPlane(h, box, axis, px);
      CutOffAbove(px, box, axis, k);
      box' := box.UpTo(axis, k);
      SamePixelsTouch(px, box', box, axis, k);
      SamePixelsTouch(px, box', box, axis, box.lo.Get(axis));
    }
  }

  /** Cuts off the planes without pixels on both sides of one axis. */
  method ShrinkAlong(h: array3<int>, box: Box, axis: Axis, ghost px: seq<Color>) returns (box': Box)
    requires IsCube(h) && Recorded(px, h) && InCube(box) && NonEmpty(px, box)
    ensures Shrunk(px, box, box') && OnlyAlong(axis, box, box') && TightAlong(px, box', axis)
  {
    var half := ShrinkBelow(h, box, axis, px);
    StillNonEmpty(px, box, half);
    box' := ShrinkAbove(h, half, axis, px);
    ShrunkTwice(px, box, half, box');
  }

  lemma StaysTight(px: seq<Color>, box: Box, box': Box, axis: Axis, a: Axis)
    requires SamePixels(px, box', box) && OnlyAlong(axis, box, box') && a != axis && TightAlong(px, box, a)
    ensures TightAlong(px, box', a)
  {
    SamePixelsTouch(px, box', box, a, box.lo.Get(a));
    SamePixelsTouch(px, box', box, a, box.hi.Get(a));
  }

  lemma ShrunkAlongAll(px: seq<Color>, box: Box, one: Box, two: Box, three: Box)
    requires Shrunk(px, box, one) && TightAlong(px, one, Red)
    requires Shrunk(px, one, two) && OnlyAlong(Green, one, two) && TightAlong(px, two, Green)
    requires Shrunk(px, two, three) && OnlyAlong(Blue, two, three) && TightAlong(px, three, Blue)
    ensures Shrunk(px, box, three) && Count(px, three) == Count(px, box) && Tight(px, three)
  {
    ShrunkTwice(px, box, one, two);
    ShrunkTwice(px, box, two, three);
    StaysTight(px, one, two, Green, Red);
    StaysTight(px, two, three, Blue, Red);
    StaysTight(px, two, three, Blue, Green);
    CountSame(px, three, box);
    forall a ensures TightAlong(px, three, a) {
    }
  }

  /** Contracts a box to its pixels. */
  method ShrinkBox(h: array3<int>, box: Box, ghost px: seq<Color>) returns (box': Box)
    requires IsCube(h) && Recorded(px, h) && InCube(box) && NonEmpty(px, box) && box.total == Count(px, box)
    ensures GoodBox(px, box') && SamePixels(px, box', box) && Within(box', box) && box'.total == box.total
  {
    var one := ShrinkAlong(h, box, Red, px);
    StillNonEmpty(px, box, one);
    var two := ShrinkAlong(h, one, Green, px);
    StillNonEmpty(px, one, two);
    box' := ShrinkAlong(h, two, Blue, px);
    ShrunkAlongAll(px, box, one, two, box');
  }

  lemma StillNonEmpty(px: seq<Color>, box: Box, box': Box)
    requires SamePixels(px, box', box) && NonEmpty(px, box)
    ensures NonEmpty(px, box')
  {
  }

  // ----- splitting

  function LongestAxis(box: Box): (axis: Axis)
    ensures forall a :: box.Length(a) <= box.Length(axis) && (EarlierAxis(a, axis) ==> box.Length(a) < box.Length(axis))
  {
    if box.Length(Red) >= box.Length(Green) && box.Length(Red) >= box.Length(Blue) then Red
    else if box.Length(Green) >= box.Length(Blue) then Green
    else Blue
  }

  // The numbers of pixels in the planes of a box.
  ghost predicate PlaneCounts(px: seq<Color>, box: Box, axis: Axis, hist2: seq<int>) {
    |hist2| == B_LEN && forall m :: 0 <= box.lo.Get(axis) <= m <= box.hi.Get(axis) < B_LEN ==> hist2[m] == Count(px, box.Plane(axis, m))
  }

  method PlaneHistogram(h: array3<int>, box: Box, axis: Axis, ghost px: seq<Color>) returns (hist2: seq<int>)
    requires IsCube(h) && Recorded(px, h) && InCube(box)
    ensures PlaneCounts(px, box, axis, hist2)
  {
    var buffer := new int[B_LEN];
    for m := box.lo.Get(axis) to box.hi.Get(axis) + 1
      invariant forall l :: box.lo.Get(axis) <= l < m ==> buffer[l] == Count(px, box.Plane(axis, l))
    {
      buffer[m] := SumPlane(h, box, axis, m, px);
    }
    hist2 := buffer[..];
  }

  // One plane more on either side of a cut.
  lemma CutMoves(px: seq<Color>, box: Box, axis: Axis, m: int)
    requires box.lo.Get(axis) <= m <= box.hi.Get(axis)
    ensures Count(px, box.UpTo(axis, m)) == Count(px, box.UpTo(axis, m - 1)) + Count(px, box.Plane(axis, m))
  {
    CountCut(px, box.UpTo(axis, m), axis, m);
    assert box.UpTo(axis, m).UpTo(axis, m - 1) == box.UpTo(axis, m - 1);
    assert box.UpTo(axis, m).From(axis, m) == box.Plane(axis, m);
  }

  lemma AllOfBox(px: seq<Color>, box: Box, axis: Axis)
    ensures box.UpTo(axis, box.hi.Get(axis)) == box
    ensures Count(px, box.UpTo(axis, box.lo.Get(axis) - 1)) == 0
  {
    CountEmpty(px, box.UpTo(axis, box.lo.Get(axis) - 1));
  }

  /** The first plane of the upper part: the one in which half of the pixels is reached, but never
      the first plane of the box. */
  method MedianPlane(hist2: seq<int>, box: Box, axis: Axis, ghost px: seq<Color>) returns (i: int)
    requires PlaneCounts(px, box, axis, hist2) && InCube(box) && box.Length(axis) > 0 && box.total == Count(px, box)
    ensures box.lo.Get(axis) < i <= box.hi.Get(axis)
    ensures i > box.lo.Get(axis) + 1 ==> Count(px, box.UpTo(axis, i - 1)) < box.total / 2
    ensures Count(px, box.UpTo(axis, i)) >= box.total / 2
  {
    var half := box.total / 2;
    var first, last := box.lo.Get(axis), box.hi.Get(axis);
    i := first;
    AllOfBox(px, box, axis);
    CutMoves(px, box, axis, first);
    var sum := hist2[first];
    while sum < half
      invariant first <= i <= last && sum == Count(px, box.UpTo(axis, i))
      invariant i > first ==> Count(px, box.UpTo(axis, i - 1)) < half
      decreases last - i
    {
      CutMoves(px, box, axis, i + 1);
      i := i + 1;
      sum := sum + hist2[i];
    }
    if i == first {
      i := i + 1;
      CutMoves(px, box, axis, i);
    }
  }

  // The sums on both sides of the cut.
  method SumSides(hist2: seq<int>, box: Box, axis: Axis, i: int, ghost px: seq<Color>) returns (sum1: int, sum2: int)
    requires PlaneCounts(px, box, axis, hist2) && InCube(box) && box.lo.Get(axis) < i <= box.hi.Get(axis)
    ensures sum1 == Count(px, box.UpTo(axis, i - 1)) && sum2 == Count(px, box.From(axis, i))
  {
    sum1, sum2 := 0, 0;
    AllOfBox(px, box, axis);
    for j := box.lo.Get(axis) to i
      invariant sum1 == Count(px, box.UpTo(axis, j - 1))
    {
      CutMoves(px, box, axis, j);
      sum1 := sum1 + hist2[j];
    }
    for j := i to box.hi.Get(axis) + 1
      invariant sum1 == Count(px, box.UpTo(axis, i - 1)) && sum1 + sum2 == Count(px, box.UpTo(axis, j - 1))
    {
      CutMoves(px, box, axis, j);
      sum2 := sum2 + hist2[j];
    }
    CountCut(px, box, axis, i);
  }

  lemma SidesHavePixels(px: seq<Color>, box: Box, axis: Axis, i: int)
    requires Tight(px, box) && box.lo.Get(axis) < i <= box.hi.Get(axis)
    ensures NonEmpty(px, box.UpTo(axis, i - 1)) && NonEmpty(px, box.From(axis, i))
  {
    assert TightAlong(px, box, axis);
    var k :| 0 <= k < |px| && box.Has(px[k]) && px[k].Get(axis) == box.lo.Get(axis);
    var l :| 0 <= l < |px| && box.Has(px[l]) && px[l].Get(axis) == box.hi.Get(axis);
    assert box.UpTo(axis, i - 1).Has(px[k]) && box.From(axis, i).Has(px[l]);
  }

  // The two parts that a box is split into.
  ghost predicate Parts(px: seq<Color>, box: Box, a: Box, b: Box) {
    && GoodBox(px, a) && GoodBox(px, b) && Within(a, box) && Within(b, box) && Apart(a, b)
    && (forall i :: 0 <= i < |px| && box.Has(px[i]) ==> a.Has(px[i]) || b.Has(px[i]))
    && a.total + b.total == box.total
  }

  lemma SidesAreParts(px: seq<Color>, box: Box, axis: Axis, m: int, a: Box, b: Box)
    requires GoodBox(px, box) && box.lo.Get(axis) < m <= box.hi.Get(axis) && GoodBox(px, a) && GoodBox(px, b)
    requires SamePixels(px, a, box.UpTo(axis, m - 1)) && Within(a, box.UpTo(axis, m - 1))
    requires SamePixels(px, b, box.From(axis, m)) && Within(b, box.From(axis, m))
    requires a.total == Count(px, box.UpTo(axis, m - 1)) && b.total == Count(px, box.From(axis, m))
    ensures Parts(px, box, a, b)
  {
    CountCut(px, box, axis, m);
    forall i | 0 <= i < |px| && box.Has(px[i]) ensures a.Has(px[i]) || b.Has(px[i]) {
      assert box.UpTo(axis, m - 1).Has(px[i]) || box.From(axis, m).Has(px[i]);
    }
  }

  predicate EarlierAxis(a: Axis, b: Axis) { (a == Red && b != Red) || (a == Green && b == Blue) }

  // The longest axis, the first one of those that are equally long.
  ghost predicate FirstLongest(box: Box, axis: Axis) {
    forall a :: box.Length(a) <= box.Length(axis) && (EarlierAxis(a, axis) ==> box.Length(a) < box.Length(axis))
  }

  // Half of the pixels are reached at plane m, and not before it, but for the first plane.
  ghost predicate AtMedian(px: seq<Color>, box: Box, axis: Axis, m: int) {
    && box.lo.Get(axis) < m <= box.hi.Get(axis)
    && Count(px, box.UpTo(axis, m)) >= box.total / 2
    && (m > box.lo.Get(axis) + 1 ==> Count(px, box.UpTo(axis, m - 1)) < box.total / 2)
  }

  // The pixels of the box before plane m are those of a, the others those of b.
  ghost predicate Sides(px: seq<Color>, box: Box, axis: Axis, m: int, a: Box, b: Box) {
    forall i :: 0 <= i < |px| && box.Has(px[i]) ==> (a.Has(px[i]) <==> px[i].Get(axis) < m) && (b.Has(px[i]) <==> m <= px[i].Get(axis))
  }

  /** The box is cut at the median of its longest axis. */
  ghost predicate IsMedianCut(px: seq<Color>, box: Box, a: Box, b: Box) {
    exists axis, m :: FirstLongest(box, axis) && AtMedian(px, box, axis, m) && Sides(px, box, axis, m, a, b)
  }

  lemma SidesOfCut(px: seq<Color>, box: Box, axis: Axis, m: int, a: Box, b: Box)
    requires box.lo.Get(axis) < m <= box.hi.Get(axis)
    requires SamePixels(px, a, box.UpTo(axis, m - 1)) && SamePixels(px, b, box.From(axis, m))
    ensures Sides(px, box, axis, m, a, b)
  {
    forall i | 0 <= i < |px| && box.Has(px[i])
      ensures (a.Has(px[i]) <==> px[i].Get(axis) < m) && (b.Has(px[i]) <==> m <= px[i].Get(axis))
    {
      assert box.UpTo(axis, m - 1).Has(px[i]) <==> px[i].Get(axis) < m;
      assert box.From(axis, m).Has(px[i]) <==> m <= px[i].Get(axis);
    }
  }

  /** Splits a box at the median of its longest axis into two tight boxes. */
  method SplitBox(h: array3<int>, box: Box, ghost px: seq<Color>) returns (newBox: Box, oldBox: Box)
    requires IsCube(h) && Recorded(px, h) && GoodBox(px, box) && !box.Single()
    ensures Parts(px, box, newBox, oldBox) && IsMedianCut(px, box, newBox, oldBox)
  {
    var axis := LongestAxis(box);
    LongestIsLong(box, axis);
    var hist2 := PlaneHistogram(h, box, axis, px);
    var i := MedianPlane(hist2, box, axis, px);
    var sum1, sum2 := SumSides(hist2, box, axis, i, px);
    SidesHavePixels(px, box, axis, i);
    newBox, oldBox := ShrinkSides(h, box, axis, i, sum1, sum2, px);
    SidesAreParts(px, box, axis, i, newBox, oldBox);
    SidesOfCut(px, box, axis, i, newBox, oldBox);
    assert FirstLongest(box, axis) && AtMedian(px, box, axis, i);
  }

  lemma LongestIsLong(box: Box, axis: Axis)
    requires InCube(box) && !box.Single() && forall a :: box.Length(a) <= box.Length(axis)
    ensures box.Length(axis) > 0
  {
    assert box.Length(Red) <= box.Length(axis) && box.Length(Green) <= box.Length(axis) && box.Length(Blue) <= box.Length(axis);
  }

  method ShrinkSides(h: array3<int>, box: Box, axis: Axis, i: int, sum1: int, sum2: int, ghost px: seq<Color>)
    returns (newBox: Box, oldBox: Box)
    requires IsCube(h) && Recorded(px, h) && InCube(box) && box.lo.Get(axis) < i <= box.hi.Get(axis)
    requires sum1 == Count(px, box.UpTo(axis, i - 1)) && sum2 == Count(px, box.From(axis, i))
    requires NonEmpty(px, box.UpTo(axis, i - 1)) && NonEmpty(px, box.From(axis, i))
    ensures GoodBox(px, newBox) && SamePixels(px, newBox, box.UpTo(axis, i - 1)) && Within(newBox, box.UpTo(axis, i - 1))
    ensures GoodBox(px, oldBox) && SamePixels(px, oldBox, box.From(axis, i)) && Within(oldBox, box.From(axis, i))
    ensures newBox.total == sum1 && oldBox.total == sum2
  {
    newBox := ShrinkSide(h, box.UpTo(axis, i - 1), sum1, px);
    oldBox := ShrinkSide(h, box.From(axis, i), sum2, px);
  }

  method ShrinkSide(h: array3<int>, side: Box, sum: int, ghost px: seq<Color>) returns (box: Box)
    requires IsCube(h) && Recorded(px, h) && InCube(side) && sum == Count(px, side) && NonEmpty(px, side)
    ensures GoodBox(px, box) && SamePixels(px, box, side) && Within(box, side) && box.total == sum
  {
    SameBox(px, side, side.(total := sum));
    box := ShrinkBox(h, side.(total := sum), px);
  }

  // The recorded total has no part in what a box contains.
  lemma SameBox(px: seq<Color>, box: Box, box': Box)
    requires box'.lo == box.lo && box'.hi == box.hi
    ensures Count(px, box') == Count(px, box) && (NonEmpty(px, box) ==> NonEmpty(px, box'))
    ensures forall c :: box'.Has(c) <==> box.Has(c)
  {
    CountSame(px, box, box');
    if NonEmpty(px, box) {
      var i :| 0 <= i < |px| && box.Has(px[i]);
      assert box'.Has(px[i]);
    }
  }

  // ----- the whole algorithm

  /** A box with most pixels among those that can be split, if there is any. */
  method LargestBox(used: seq<Box>) returns (k: int)
    ensures k == -1 || (0 <= k < |used| && CanSplit(used[k]))
    ensures k == -1 ==> forall i :: 0 <= i < |used| && used[i].total >= 0 ==> !CanSplit(used[i])
    ensures k != -1 ==> forall i :: 0 <= i < |used| && CanSplit(used[i]) ==> used[i].total <= used[k].total && (i < k ==> used[i].total < used[k].total)
  {
    k := -1;
    var size := -1;
    for i := 0 to |used|
      invariant k == -1 || (0 <= k < i && CanSplit(used[k]) && size == used[k].total)
      invariant k == -1 ==> size == -1 && forall l :: 0 <= l < i && used[l].total >= 0 ==> !CanSplit(used[l])
      invariant forall l :: 0 <= l < i && CanSplit(used[l]) ==> used[l].total <= size && (l < k ==> used[l].total < size)
    {
      if CanSplit(used[i]) && used[i].total > size {
        k, size := i, used[i].total;
      }
    }
  }

  predicate CanSplit(box: Box) { box.hi.r > box.lo.r || box.hi.g > box.lo.g || box.hi.b > box.lo.b }

  function Quantized(c: Color): Color { Color(c.r / BUCKET, c.g / BUCKET, c.b / BUCKET) }

  function QuantizedAll(pixels: seq<Color>): (px: seq<Color>)
    ensures |px| == |pixels| && forall i :: 0 <= i < |pixels| ==> px[i] == Quantized(pixels[i])
  {
    seq(|pixels|, i requires 0 <= i < |pixels| => Quantized(pixels[i]))
  }

  predicate EightBit(c: Color) { 0 <= c.r < 256 && 0 <= c.g < 256 && 0 <= c.b < 256 }

  // The smallest box around the first n pixels, or a box that contains nothing.
  ghost predicate Around(px: seq<Color>, box: Box) {
    if px == [] then box.lo == Color(999, 999, 999) && box.hi == Color(-1, -1, -1)
    else InCube(box) && Tight(px, box) && forall i :: 0 <= i < |px| ==> box.Has(px[i])
  }

  function Stretched(box: Box, c: Color): Box {
    Box(Color(Min(box.lo.r, c.r), Min(box.lo.g, c.g), Min(box.lo.b, c.b)),
        Color(Max(box.hi.r, c.r), Max(box.hi.g, c.g), Max(box.hi.b, c.b)), box.total)
  }


  predicate InCubeColor(c: Color) { 0 <= c.r < B_LEN && 0 <= c.g < B_LEN && 0 <= c.b < B_LEN }

  lemma StretchedAround(px: seq<Color>, box: Box, c: Color)
    requires Around(px, box) && InCubeColor(c)
    ensures Around(px + [c], Stretched(box, c))
  {
    var px', box' := px + [c], Stretched(box, c);
    assert px'[|px|] == c;
    forall i | 0 <= i < |px'| ensures box'.Has(px'[i]) {
      if i < |px| { assert px'[i] == px[i]; }
    }
    forall axis ensures TightAlong(px', box', axis) {
      SideStretched(px, box, c, axis);
    }
  }

  lemma SideStretched(px: seq<Color>, box: Box, c: Color, axis: Axis)
    requires Around(px, box) && InCubeColor(c) && forall i :: 0 <= i < |px| ==> Stretched(box, c).Has(px[i])
    requires Stretched(box, c).Has(c)
    ensures TightAlong(px + [c], Stretched(box, c), axis)
  {
    var px', box' := px + [c], Stretched(box, c);
    assert px'[|px|] == c;
    if px != [] {
      assert TightAlong(px, box, axis);
      var k :| 0 <= k < |px| && px[k].Get(axis) == box.lo.Get(axis);
      var l :| 0 <= l < |px| && px[l].Get(axis) == box.hi.Get(axis);
      assert px'[k] == px[k] && px'[l] == px[l] && box'.Has(px'[k]) && box'.Has(px'[l]);
      assert box'.lo.Get(axis) == Min(box.lo.Get(axis), c.Get(axis)) && box'.hi.Get(axis) == Max(box.hi.Get(axis), c.Get(axis));
    } else {
      assert box'.lo == c && box'.hi == c;
    }
  }

  // One pixel more is recorded.
  method RecordPixel(h: array3<int>, c: Color, ghost px: seq<Color>)
    requires IsCube(h) && Recorded(px, h) && InCubeColor(c)
    modifies h
    ensures Recorded(px + [c], h)
  {
    h[c.r, c.g, c.b] := h[c.r, c.g, c.b] + 1;
    forall r, g, b | 0 <= r < B_LEN && 0 <= g < B_LEN && 0 <= b < B_LEN
      ensures h[r, g, b] == Count(px + [c], Cell(Color(r, g, b)))
    {
      assert (px + [c])[..|px|] == px;
    }
  }

  // One pixel more is counted, and the box stretched to hold it.
  method CollectPixel(h: array3<int>, box: Box, c: Color, ghost px: seq<Color>) returns (box': Box)
    requires IsCube(h) && Recorded(px, h) && Around(px, box) && InCubeColor(c)
    modifies h
    ensures Recorded(px + [c], h) && Around(px + [c], box') && box'.total == box.total
  {
    StretchedAround(px, box, c);
    box' := Stretched(box, c);
    RecordPixel(h, c, px);
  }

  method CollectAll(h: array3<int>, pixels: seq<Color>) returns (box: Box)
    requires IsCube(h) && Recorded([], h) && forall i :: 0 <= i < |pixels| ==> EightBit(pixels[i])
    modifies h
    ensures Recorded(QuantizedAll(pixels), h) && Around(QuantizedAll(pixels), box) && box.total == |pixels|
  {
    box := Box(Color(999, 999, 999), Color(-1, -1, -1), |pixels|);
    ghost var px := QuantizedAll(pixels);
    for i := 0 to |pixels|
      invariant Recorded(px[..i], h) && Around(px[..i], box) && box.total == |pixels|
    {
      assert px[..i + 1] == px[..i] + [px[i]];
      box := CollectPixel(h, box, Quantized(pixels[i]), px[..i]);
    }
    assert px[..|px|] == px;
  }

  /** The histogram, and the smallest box around all pixels. */
  method CollectHistogram(pixels: seq<Color>) returns (h: array3<int>, box: Box)
    requires |pixels| > 0 && forall i :: 0 <= i < |pixels| ==> EightBit(pixels[i])
    ensures IsCube(h) && Recorded(QuantizedAll(pixels), h) && GoodBox(QuantizedAll(pixels), box)
    ensures forall i :: 0 <= i < |pixels| ==> box.Has(QuantizedAll(pixels)[i])
  {
    h := new int[B_LEN, B_LEN, B_LEN]((_, _, _) => 0);
    box := CollectAll(h, pixels);
    CountAll(QuantizedAll(pixels), box);
  }

  lemma {:induction false} CountAll(px: seq<Color>, box: Box)
    requires forall i :: 0 <= i < |px| ==> box.Has(px[i])
    ensures Count(px, box) == |px|
  {
    if px != [] {
      assert forall i :: 0 <= i < |px| - 1 ==> px[..|px| - 1][i] == px[i];
      CountAll(px[..|px| - 1], box);
    }
  }

  // One box more.
  // The first box with most pixels, of those that can be split.
  ghost predicate IsLargest(used: seq<Box>, k: nat) {
    && k < |used| && CanSplit(used[k])
    && forall i :: 0 <= i < |used| && CanSplit(used[i]) ==> used[i].total <= used[k].total && (i < k ==> used[i].total < used[k].total)
  }

  /** One box is cut, the largest one: its first part goes to the front, the second one takes its place. */
  ghost predicate Cuts(px: seq<Color>, used: seq<Box>, used': seq<Box>) {
    exists k: nat, a, b :: CutsBox(px, used, used', k, a, b)
  }

  ghost predicate CutsBox(px: seq<Color>, used: seq<Box>, used': seq<Box>, k: nat, a: Box, b: Box) {
    IsLargest(used, k) && Parts(px, used[k], a, b) && IsMedianCut(px, used[k], a, b) && used' == [a] + used[k := b]
  }

  method SplitOne(h: array3<int>, used: seq<Box>, k: nat, ghost px: seq<Color>) returns (used': seq<Box>)
    requires IsCube(h) && Recorded(px, h) && Partition(px, used) && IsLargest(used, k)
    ensures Partition(px, used') && |used'| == |used| + 1 && Cuts(px, used, used')
  {
    var newBox, oldBox := SplitBox(h, used[k], px);
    SplitKeepsPartition(px, used, k, newBox, oldBox);
    used' := [newBox] + used[k := oldBox];
    assert CutsBox(px, used, used', k, newBox, oldBox);
  }

  // The boxes after every cut, from the first box on.
  ghost predicate CutByCut(px: seq<Color>, steps: seq<seq<Box>>, box: Box, used: seq<Box>) {
    && |steps| > 0 && steps[0] == [box] && steps[|steps| - 1] == used
    && forall i {:trigger steps[i]} :: 0 < i < |steps| ==> Cuts(px, steps[i - 1], steps[i])
  }

  /** There are no free boxes left, or nothing to split. */
  ghost predicate Exhausted(used: seq<Box>, colors: nat) {
    |used| == colors || forall k :: 0 <= k < |used| ==> !CanSplit(used[k])
  }

  /** Cuts the largest box, time and again. */
  method SplitAll(h: array3<int>, box: Box, colors: nat, ghost px: seq<Color>) returns (used: seq<Box>, ghost steps: seq<seq<Box>>)
    requires IsCube(h) && Recorded(px, h) && colors > 0 && Partition(px, [box])
    ensures Partition(px, used) && |used| <= colors && Exhausted(used, colors)
    ensures CutByCut(px, steps, box, used)
  {
    used, steps := [box], [[box]];
    var free := colors - 1;
    while free > 0
      invariant Partition(px, used) && 0 <= free && |used| + free <= colors && (|used| + free == colors || Exhausted(used, colors))
      invariant CutByCut(px, steps, box, used)
      decreases free
    {
      var k := LargestBox(used);
      if k != -1 {
        used := SplitOne(h, used, k, px);
        steps := steps + [used];
        free := free - 1;
      } else {
        free := 0;
      }
    }
  }
}
