/** The colour table that a median cut makes, and why few colours are kept exactly. */
module MedianCutTable {
  import opened ColorBoxes
  import opened MedianCut

  // The colours that occur.
  ghost function Colors(px: seq<Color>): set<Color> { set i | 0 <= i < |px| :: px[i] }

  // Those that lie in the first n boxes.
  ghost function ColorsIn(px: seq<Color>, used: seq<Box>, n: nat): set<Color>
    requires n <= |used|
  {
    set c | c in Colors(px) && Held(used[..n], c)
  }

  // The colours of one box.
  ghost function ColorsOf(px: seq<Color>, box: Box): set<Color> { set c | c in Colors(px) && box.Has(c) }

  lemma ColorsInNext(px: seq<Color>, used: seq<Box>, n: nat)
    requires Partition(px, used) && n < |used|
    ensures |ColorsIn(px, used, n + 1)| == |ColorsIn(px, used, n)| + |ColorsOf(px, used[n])|
  {
    var a, b := ColorsIn(px, used, n), ColorsOf(px, used[n]);
    var before, with_ := used[..n], used[..n + 1];
    forall c ensures Held(with_, c) <==> Held(before, c) || used[n].Has(c) {
      if k :| 0 <= k < |with_| && with_[k].Has(c) { assert k < n ==> before[k].Has(c); }
      if k :| 0 <= k < |before| && before[k].Has(c) { assert with_[k].Has(c); }
      if used[n].Has(c) { assert with_[n].Has(c); }
    }
    assert ColorsIn(px, used, n + 1) == a + b;
    forall c | c in a ensures c !in b {
      var k :| 0 <= k < n && used[..n][k].Has(c);
      assert Apart(used[k], used[n]);
    }
  }

  // Tight boxes have a colour, and two of them when they can be split.
  lemma ColorsOfTight(px: seq<Color>, box: Box)
    requires GoodBox(px, box)
    ensures |ColorsOf(px, box)| >= if CanSplit(box) then 2 else 1
  {
    var axis := LongestAxis(box);
    assert box.Length(Red) <= box.Length(axis) && box.Length(Green) <= box.Length(axis) && box.Length(Blue) <= box.Length(axis);
    assert TightAlong(px, box, axis);
    var k :| 0 <= k < |px| && box.Has(px[k]) && px[k].Get(axis) == box.lo.Get(axis);
    var l :| 0 <= l < |px| && box.Has(px[l]) && px[l].Get(axis) == box.hi.Get(axis);
    assert {px[k], px[l]} <= ColorsOf(px, box);
    SubsetSize({px[k], px[l]}, ColorsOf(px, box));
  }

  lemma {:induction false} SubsetSize<T>(a: set<T>, b: set<T>)
    requires a <= b
    ensures |a| <= |b|
    decreases a
  {
    if x :| x in a { SubsetSize(a - {x}, b - {x}); }
  }

  // How many of the first n boxes can be split.
  function Splittable(used: seq<Box>, n: nat): nat
    requires n <= |used|
  {
    if n == 0 then 0 else Splittable(used, n - 1) + if CanSplit(used[n - 1]) then 1 else 0
  }

  lemma {:induction false} AtLeastSoManyColors(px: seq<Color>, used: seq<Box>, n: nat)
    requires Partition(px, used) && n <= |used|
    ensures |ColorsIn(px, used, n)| >= n + Splittable(used, n)
  {
    if n > 0 {
      AtLeastSoManyColors(px, used, n - 1);
      ColorsInNext(px, used, n - 1);
      ColorsOfTight(px, used[n - 1]);
    }
  }

  lemma {:induction false} SplittableCounts(used: seq<Box>, n: nat, k: nat)
    requires k < n <= |used| && CanSplit(used[k])
    ensures Splittable(used, n) >= 1
  {
    if k < n - 1 { SplittableCounts(used, n - 1, k); }
  }

  /** If an image has no more quantised colours than the table is to have, every one of them ends up
      alone in its box. */
  lemma FewColorsAreAlone(px: seq<Color>, used: seq<Box>, colors: nat)
    requires Partition(px, used) && Exhausted(used, colors) && |Colors(px)| <= colors
    ensures forall k :: 0 <= k < |used| ==> !CanSplit(used[k]) && used[k].Single()
    ensures forall i :: 0 <= i < |px| ==> exists k :: 0 <= k < |used| && used[k].lo == used[k].hi == px[i]
  {
    forall k | 0 <= k < |used| ensures !CanSplit(used[k]) && used[k].Single() {
      if CanSplit(used[k]) {
        AtLeastSoManyColors(px, used, |used|);
        SplittableCounts(used, |used|, k);
        SubsetSize(ColorsIn(px, used, |used|), Colors(px));
      }
      assert GoodBox(px, used[k]);
    }
    forall i | 0 <= i < |px| ensures exists k :: 0 <= k < |used| && used[k].lo == used[k].hi == px[i] {
      assert Held(used, px[i]);
      var k :| 0 <= k < |used| && used[k].Has(px[i]);
      assert used[k].Single();
    }
  }

  // ----- the table

  /** The entry of a box: the middle between its sides. */
  function Entry(box: Box): Color {
    Color((box.lo.r + box.hi.r) * BUCKET / 2, (box.lo.g + box.hi.g) * BUCKET / 2, (box.lo.b + box.hi.b) * BUCKET / 2)
  }

  // Value v of a pixel, of those in a box, is the least of them along an axis, or the greatest.
  ghost predicate LeastOf(pixels: seq<Color>, box: Box, axis: Axis, v: int) {
    && (exists i :: 0 <= i < |pixels| && box.Has(Quantized(pixels[i])) && pixels[i].Get(axis) / 8 == v)
    && (forall i :: 0 <= i < |pixels| && box.Has(Quantized(pixels[i])) ==> v <= pixels[i].Get(axis) / 8)
  }

  ghost predicate GreatestOf(pixels: seq<Color>, box: Box, axis: Axis, v: int) {
    && (exists i :: 0 <= i < |pixels| && box.Has(Quantized(pixels[i])) && pixels[i].Get(axis) / 8 == v)
    && (forall i :: 0 <= i < |pixels| && box.Has(Quantized(pixels[i])) ==> pixels[i].Get(axis) / 8 <= v)
  }

  /** An entry is as far from the least value of its pixels as from the greatest, in steps of eight. */
  ghost predicate InTheMiddle(pixels: seq<Color>, box: Box, entry: Color, axis: Axis) {
    exists lo, hi :: LeastOf(pixels, box, axis, lo) && GreatestOf(pixels, box, axis, hi)
                     && entry.Get(axis) - 8 * lo == 8 * hi - entry.Get(axis)
  }

  lemma SidesOfTight(pixels: seq<Color>, box: Box, axis: Axis)
    requires GoodBox(QuantizedAll(pixels), box) && forall i :: 0 <= i < |pixels| ==> EightBit(pixels[i])
    ensures LeastOf(pixels, box, axis, box.lo.Get(axis)) && GreatestOf(pixels, box, axis, box.hi.Get(axis))
  {
    var px := QuantizedAll(pixels);
    assert TightAlong(px, box, axis);
    var k :| 0 <= k < |px| && box.Has(px[k]) && px[k].Get(axis) == box.lo.Get(axis);
    var l :| 0 <= l < |px| && box.Has(px[l]) && px[l].Get(axis) == box.hi.Get(axis);
    assert box.Has(Quantized(pixels[k])) && box.Has(Quantized(pixels[l]));
    assert forall i :: 0 <= i < |pixels| ==> px[i].Get(axis) == pixels[i].Get(axis) / 8;
    assert pixels[k].Get(axis) / 8 == box.lo.Get(axis) && pixels[l].Get(axis) / 8 == box.hi.Get(axis);
  }

  lemma EntryInTheMiddle(pixels: seq<Color>, box: Box, axis: Axis)
    requires GoodBox(QuantizedAll(pixels), box) && forall i :: 0 <= i < |pixels| ==> EightBit(pixels[i])
    ensures InTheMiddle(pixels, box, Entry(box), axis)
  {
    SidesOfTight(pixels, box, axis);
    var lo, hi := box.lo.Get(axis), box.hi.Get(axis);
    assert Entry(box).Get(axis) - 8 * lo == 8 * hi - Entry(box).Get(axis);
  }

  /** The entry of a single colour is the first colour that is quantised to it. */
  lemma EntryOfSingle(box: Box)
    requires InCube(box) && box.Single()
    ensures EightBit(Entry(box)) && Quantized(Entry(box)) == box.lo
    ensures forall c :: Quantized(c) == box.lo && EightBit(c) ==>
              Entry(box).r <= c.r < Entry(box).r + BUCKET && Entry(box).g <= c.g < Entry(box).g + BUCKET
              && Entry(box).b <= c.b < Entry(box).b + BUCKET
  {
  }

  /** The boxes come from one around all pixels, by cutting the largest one time and again. */
  ghost predicate ByMedianCut(px: seq<Color>, used: seq<Box>) {
    exists box, steps :: GoodBox(px, box) && (forall i :: 0 <= i < |px| ==> box.Has(px[i])) && CutByCut(px, steps, box, used)
  }

  // The boxes of an image.
  method BoxesOf(pixels: seq<Color>, colors: nat) returns (boxes: seq<Box>)
    requires |pixels| > 0 && colors > 0 && forall i :: 0 <= i < |pixels| ==> EightBit(pixels[i])
    ensures Partition(QuantizedAll(pixels), boxes) && |boxes| <= colors && Exhausted(boxes, colors)
    ensures ByMedianCut(QuantizedAll(pixels), boxes)
  {
    var h, box := CollectHistogram(pixels);
    OneBox(QuantizedAll(pixels), box);
    ghost var steps;
    boxes, steps := SplitAll(h, box, colors, QuantizedAll(pixels));
  }

  method TableOf(boxes: seq<Box>) returns (table: seq<Color>)
    ensures |table| == |boxes| && forall k :: 0 <= k < |boxes| ==> table[k] == Entry(boxes[k])
  {
    table := [];
    for i := 0 to |boxes|
      invariant |table| == i && forall k :: 0 <= k < i ==> table[k] == Entry(boxes[k])
    {
      table := table + [Entry(boxes[i])];
    }
  }

  /** Makes a table of at most so many colours for an image.  The ghost result tells the boxes: they
      partition the pixels, and none can be split any more or there are as many as wanted. */
  method ComputeMedianCutPCT(pixels: seq<Color>, colors: int) returns (ok: bool, table: seq<Color>, ghost used: seq<Box>)
    requires |pixels| > 0 && forall i :: 0 <= i < |pixels| ==> EightBit(pixels[i])
    ensures ok <==> 0 < colors <= 256
    ensures ok ==> |table| == |used| <= colors && Partition(QuantizedAll(pixels), used) && Exhausted(used, colors)
    ensures ok ==> ByMedianCut(QuantizedAll(pixels), used)
    ensures ok ==> forall k :: 0 <= k < |used| ==> table[k] == Entry(used[k])
    ensures ok ==> forall k, axis :: 0 <= k < |used| ==> InTheMiddle(pixels, used[k], table[k], axis)
    ensures ok && |Colors(QuantizedAll(pixels))| <= colors ==>
              forall i :: 0 <= i < |pixels| ==> exists k :: 0 <= k < |table| && Quantized(table[k]) == Quantized(pixels[i])
  {
    if colors <= 0 || colors > 256 { return false, [], []; }
    var boxes := BoxesOf(pixels, colors);
    table := TableOf(boxes);
    ok, used := true, boxes;
    forall k, axis | 0 <= k < |boxes| ensures InTheMiddle(pixels, boxes[k], table[k], axis) {
      EntryInTheMiddle(pixels, boxes[k], axis);
    }
    if |Colors(QuantizedAll(pixels))| <= colors { EveryPixelKept(pixels, boxes, table, colors); }
  }

  lemma EveryPixelKept(pixels: seq<Color>, used: seq<Box>, table: seq<Color>, colors: nat)
    requires var px := QuantizedAll(pixels); Partition(px, used) && Exhausted(used, colors) && |Colors(px)| <= colors
    requires |table| == |used| && forall k :: 0 <= k < |used| ==> table[k] == Entry(used[k])
    ensures forall i :: 0 <= i < |pixels| ==> exists k :: 0 <= k < |table| && Quantized(table[k]) == Quantized(pixels[i])
  {
    var px := QuantizedAll(pixels);
    KeptExactly(px, used, table, colors);
    assert forall i :: 0 <= i < |pixels| ==> px[i] == Quantized(pixels[i]);
  }

  lemma OneBox(px: seq<Color>, box: Box)
    requires GoodBox(px, box) && |px| > 0 && forall i :: 0 <= i < |px| ==> box.Has(px[i])
    ensures Partition(px, [box])
  {
    CountAll(px, box);
    TotalsPrepended([], box);
    assert [box] + [] == [box];
    forall i | 0 <= i < |px| ensures Held([box], px[i]) { assert [box][0].Has(px[i]); }
  }

  lemma KeptExactly(px: seq<Color>, used: seq<Box>, table: seq<Color>, colors: nat)
    requires Partition(px, used) && Exhausted(used, colors) && |Colors(px)| <= colors
    requires |table| == |used| && forall k :: 0 <= k < |used| ==> table[k] == Entry(used[k])
    ensures forall i :: 0 <= i < |px| ==> exists k :: 0 <= k < |table| && Quantized(table[k]) == px[i]
  {
    FewColorsAreAlone(px, used, colors);
    forall i | 0 <= i < |px| ensures exists k :: 0 <= k < |table| && Quantized(table[k]) == px[i] {
      var k :| 0 <= k < |used| && used[k].lo == used[k].hi == px[i];
      assert GoodBox(px, used[k]);
      EntryOfSingle(used[k]);
    }
  }
}
