/** Boxes in the cube of quantised colours, and how many pixels of an image they contain. */
module ColorBoxes {

  const B_LEN := 32
  // The width of a quantisation step.
  const BUCKET := 8

  datatype Axis = Red | Green | Blue

  datatype Color = Color(r: int, g: int, b: int) {
    function Get(axis: Axis): int {
      match axis
      case Red => r
      case Green => g
      case Blue => b
    }

    function With(axis: Axis, v: int): Color {
      match axis
      case Red => Color(v, g, b)
      case Green => Color(r, v, b)
      case Blue => Color(r, g, v)
    }
  }

  /** All colours between two corners, and the number of pixels recorded for them. */
  datatype Box = Box(lo: Color, hi: Color, total: int) {
    predicate Has(c: Color) { lo.r <= c.r <= hi.r && lo.g <= c.g <= hi.g && lo.b <= c.b <= hi.b }

    // The part up to plane m of an axis, and the part from plane m on.
    function UpTo(axis: Axis, m: int): Box { Box(lo, hi.With(axis, m), total) }
    function From(axis: Axis, m: int): Box { Box(lo.With(axis, m), hi, total) }
    function Plane(axis: Axis, m: int): Box { Box(lo.With(axis, m), hi.With(axis, m), total) }

    function Length(axis: Axis): int { hi.Get(axis) - lo.Get(axis) }

    predicate Single() { lo == hi }
  }

  // ----- counting pixels

  /** The number of pixels with a colour in the box. */
  function Count(px: seq<Color>, box: Box): nat {
    if px == [] then 0 else Count(px[..|px| - 1], box) + if box.Has(px[|px| - 1]) then 1 else 0
  }

  lemma {:induction false} CountEmpty(px: seq<Color>, box: Box)
    requires forall c :: !box.Has(c)
    ensures Count(px, box) == 0
  {
    if px != [] { CountEmpty(px[..|px| - 1], box); }
  }

  /** Cutting a box along an axis cuts the number of its pixels. */
  lemma {:induction false} CountCut(px: seq<Color>, box: Box, axis: Axis, m: int)
    requires box.lo.Get(axis) <= m <= box.hi.Get(axis) + 1
    ensures Count(px, box) == Count(px, box.UpTo(axis, m - 1)) + Count(px, box.From(axis, m))
  {
    if px != [] { CountCut(px[..|px| - 1], box, axis, m); }
  }

  lemma {:induction false} CountSame(px: seq<Color>, box: Box, box': Box)
    requires forall i :: 0 <= i < |px| ==> (box.Has(px[i]) <==> box'.Has(px[i]))
    ensures Count(px, box) == Count(px, box')
  {
    if px != [] {
      var q := px[..|px| - 1];
      assert forall i :: 0 <= i < |q| ==> q[i] == px[i];
      CountSame(q, box, box');
    }
  }

  // A box has pixels exactly when some pixel is in it.
  lemma {:induction false} CountPositive(px: seq<Color>, box: Box)
    ensures Count(px, box) > 0 <==> exists i :: 0 <= i < |px| && box.Has(px[i])
  {
    if px != [] {
      var q := px[..|px| - 1];
      CountPositive(q, box);
      if i :| 0 <= i < |px| && box.Has(px[i]) { assert i < |q| ==> q[i] == px[i]; }
      if i :| 0 <= i < |q| && box.Has(q[i]) { assert box.Has(px[i]); }
    }
  }

  // ----- tight boxes

  // Some pixel of the box lies in plane m.
  ghost predicate Touches(px: seq<Color>, box: Box, axis: Axis, m: int) {
    exists i :: 0 <= i < |px| && box.Has(px[i]) && px[i].Get(axis) == m
  }

  lemma TouchesPlane(px: seq<Color>, box: Box, axis: Axis, m: int)
    requires box.lo.Get(axis) <= m <= box.hi.Get(axis)
    ensures Touches(px, box, axis, m) <==> Count(px, box.Plane(axis, m)) > 0
  {
    CountPositive(px, box.Plane(axis, m));
    assert forall c :: box.Plane(axis, m).Has(c) <==> box.Has(c) && c.Get(axis) == m;
  }

  /** On all six sides the box reaches as far as its pixels do. */
  ghost predicate Tight(px: seq<Color>, box: Box) {
    forall axis :: TightAlong(px, box, axis)
  }

  ghost predicate TightAlong(px: seq<Color>, box: Box, axis: Axis) {
    Touches(px, box, axis, box.lo.Get(axis)) && Touches(px, box, axis, box.hi.Get(axis))
  }

  // The same pixels are in both boxes.
  ghost predicate SamePixels(px: seq<Color>, box: Box, box': Box) {
    forall i :: 0 <= i < |px| ==> (box.Has(px[i]) <==> box'.Has(px[i]))
  }

  // Part of another box.
  ghost predicate Within(box: Box, outer: Box) {
    forall c :: box.Has(c) ==> outer.Has(c)
  }

  lemma SamePixelsTouch(px: seq<Color>, box: Box, box': Box, axis: Axis, m: int)
    requires SamePixels(px, box, box')
    ensures Touches(px, box, axis, m) <==> Touches(px, box', axis, m)
  {
    if Touches(px, box, axis, m) {
      var i :| 0 <= i < |px| && box.Has(px[i]) && px[i].Get(axis) == m;
      assert box'.Has(px[i]);
    }
    if Touches(px, box', axis, m) {
      var i :| 0 <= i < |px| && box'.Has(px[i]) && px[i].Get(axis) == m;
      assert box.Has(px[i]);
    }
  }

  // ----- all boxes

  ghost predicate InCube(box: Box) {
    && 0 <= box.lo.r <= box.hi.r < B_LEN && 0 <= box.lo.g <= box.hi.g < B_LEN && 0 <= box.lo.b <= box.hi.b < B_LEN
  }

  ghost predicate GoodBox(px: seq<Color>, box: Box) {
    InCube(box) && Tight(px, box) && box.total == Count(px, box)
  }

  function Totals(used: seq<Box>): int {
    if used == [] then 0 else Totals(used[..|used| - 1]) + used[|used| - 1].total
  }

  ghost predicate Apart(a: Box, b: Box) { forall c :: !(a.Has(c) && b.Has(c)) }

  ghost predicate Held(used: seq<Box>, c: Color) { exists k :: 0 <= k < |used| && used[k].Has(c) }

  /** The boxes are tight, hold what they say, have no colour in common, and hold all pixels. */
  ghost predicate Partition(px: seq<Color>, used: seq<Box>) {
    && (forall k :: 0 <= k < |used| ==> GoodBox(px, used[k]))
    && (forall k, l :: 0 <= k < l < |used| ==> Apart(used[k], used[l]))
    && (forall i :: 0 <= i < |px| ==> Held(used, px[i]))
    && Totals(used) == |px|
  }

  lemma {:induction false} TotalsUpdated(used: seq<Box>, k: nat, box: Box)
    requires k < |used|
    ensures Totals(used[k := box]) == Totals(used) - used[k].total + box.total
  {
    var n := |used| - 1;
    if k < n {
      TotalsUpdated(used[..n], k, box);
      assert used[k := box][..n] == used[..n][k := box];
    } else {
      assert used[k := box][..n] == used[..n];
    }
  }

  lemma {:induction false} TotalsPrepended(used: seq<Box>, box: Box)
    ensures Totals([box] + used) == Totals(used) + box.total
  {
    if used != [] {
      var n := |used| - 1;
      TotalsPrepended(used[..n], box);
      assert ([box] + used)[..n + 1] == [box] + used[..n];
    } else {
      assert ([box] + used)[..0] == [];
    }
  }

  /** Splitting one box into two tight parts that hold all of its pixels keeps a partition. */
  lemma SplitKeepsPartition(px: seq<Color>, used: seq<Box>, k: nat, a: Box, b: Box)
    requires Partition(px, used) && k < |used| && GoodBox(px, a) && GoodBox(px, b)
    requires Within(a, used[k]) && Within(b, used[k]) && Apart(a, b)
    requires forall i :: 0 <= i < |px| && used[k].Has(px[i]) ==> a.Has(px[i]) || b.Has(px[i])
    requires a.total + b.total == used[k].total
    ensures Partition(px, [a] + used[k := b])
  {
    var used' := [a] + used[k := b];
    TotalsUpdated(used, k, b);
    TotalsPrepended(used[k := b], a);
    forall i, l | 0 <= i < l < |used'| ensures Apart(used'[i], used'[l]) {
      if i > 0 { assert Apart(used[i - 1], used[l - 1]); }
      if l - 1 < k { assert Apart(used[l - 1], used[k]); } else if l - 1 > k { assert Apart(used[k], used[l - 1]); }
    }
    forall i | 0 <= i < |px| ensures Held(used', px[i]) {
      assert Held(used, px[i]);
      var l :| 0 <= l < |used| && used[l].Has(px[i]);
      if l != k { assert used'[l + 1].Has(px[i]); } else { assert used'[0].Has(px[i]) || used'[k + 1].Has(px[i]); }
    }
  }
}
