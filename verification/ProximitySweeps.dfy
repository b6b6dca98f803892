/** The two sweeps: downwards and upwards over the lines of the image. */
module ProximitySweeps {
  import opened Proximity

  // ----- one line, in both directions

  /** After both passes along a line, every pixel is as close to the targets of its line as they are,
      and no farther from what was found before. */
  ghost predicate LineDone(src: Source, near0: seq<Near>, prox0: seq<int>, near: seq<Near>, prox: seq<int>, w: nat, y: int, lim: Limits) {
    && |near0| == |prox0| == w && LineReal(src, near, prox, w, y, lim.limit)
    && forall x :: 0 <= x < w ==> PixelSettled(src, near0[x], prox0[x], near[x], prox[x], w, x, y, lim)
  }

  ghost predicate PixelSettled(src: Source, near0: Near, prox0: int, near: Near, prox: int, w: nat, x: int, y: int, lim: Limits) {
    && Worse(near0, near, x, y, lim.bound) && (prox0 >= 0 ==> 0 <= prox <= prox0)
    && (near.At? && Sq(near, x, y) as real <= lim.limit ==> 0 <= prox <= Sq(near, x, y))
    && forall x0 :: 0 <= x0 < w && src.IsTarget(x0, y) ==> Close(near, x, y, Distance(x, x0))
  }

  function Distance(a: int, b: int): int { if a < b then b - a else a - b }

  lemma WorseTwice(a: Near, b: Near, c: Near, x: int, y: int, bound: real)
    requires Worse(a, b, x, y, bound) && Worse(b, c, x, y, bound)
    ensures Worse(a, c, x, y, bound)
  {
  }

  lemma CloseStays(a: Near, b: Near, x: int, y: int, k: int, w: nat, bound: real)
    requires Close(a, x, y, k) && Worse(a, b, x, y, bound) && 0 <= k < w && WideBound(w, bound)
    ensures Close(b, x, y, k)
  {
    WithinBound(w, bound, k);
  }

  lemma RowCloseAt(src: Source, near: seq<Near>, forward: bool, w: nat, y: int, x: int, x0: int)
    requires RowClose(src, near, forward, w, y, w) && 0 <= x < w && 0 <= x0 < w && src.IsTarget(x0, y)
    requires if forward then x0 <= x else x <= x0
    ensures Close(near[x], x, y, Distance(x, x0))
  {
    var m, k := if forward then x0 else w - 1 - x0, if forward then x else w - 1 - x;
    assert Position(forward, w, m) == x0 && Position(forward, w, k) == x;
  }

  lemma PixelDoneAt(src: Source, near0: seq<Near>, prox0: seq<int>, near: seq<Near>, prox: seq<int>, forward: bool, w: nat, y: int, lim: Limits, x: int)
    requires LineGoes(src, near0, prox0, near, prox, forward, w, y, w, lim) && 0 <= x < w
    ensures PixelDone(src, near0[x], prox0[x], near[x], prox[x], x, y, lim)
  {
    var k := if forward then x else w - 1 - x;
    assert Position(forward, w, k) == x;
  }

  lemma BothPasses(src: Source, near0: seq<Near>, prox0: seq<int>, near1: seq<Near>, prox1: seq<int>, near: seq<Near>, prox: seq<int>,
                   forward: bool, w: nat, y: int, lim: Limits, x: int)
    requires LineGoes(src, near0, prox0, near1, prox1, forward, w, y, w, lim)
    requires LineGoes(src, near1, prox1, near, prox, !forward, w, y, w, lim)
    requires WideBound(w, lim.bound) && 0 <= x < w
    ensures PixelSettled(src, near0[x], prox0[x], near[x], prox[x], w, x, y, lim)
  {
    PixelDoneAt(src, near0, prox0, near1, prox1, forward, w, y, lim, x);
    PixelDoneAt(src, near1, prox1, near, prox, !forward, w, y, lim, x);
    WorseTwice(near0[x], near1[x], near[x], x, y, lim.bound);
    forall x0 | 0 <= x0 < w && src.IsTarget(x0, y) ensures Close(near[x], x, y, Distance(x, x0)) {
      if (if forward then x0 <= x else x <= x0) {
        RowCloseAt(src, near1, forward, w, y, x, x0);
        CloseStays(near1[x], near[x], x, y, Distance(x, x0), w, lim.bound);
      } else {
        RowCloseAt(src, near, !forward, w, y, x, x0);
      }
    }
  }

  method ProcessLine(src: Source, near: array<Near>, prox: array<int>, forward: bool, w: nat, y: nat, lim: Limits)
    requires GoodSource(src, w) && y < |src.lines| && Buffers(near, prox, w) && GoodLimits(w, lim)
    requires LineReal(src, near[..], prox[..], w, y, lim.limit)
    modifies near, prox
    ensures LineDone(src, old(near[..]), old(prox[..]), near[..], prox[..], w, y, lim)
  {
    ghost var near0, prox0 := near[..], prox[..];
    ProcessProximityLine(src, near, prox, forward, w, y, lim);
    ghost var near1, prox1 := near[..], prox[..];
    ProcessProximityLine(src, near, prox, !forward, w, y, lim);
    forall x | 0 <= x < w ensures PixelSettled(src, near0[x], prox0[x], near[..][x], prox[..][x], w, x, y, lim) {
      BothPasses(src, near0, prox0, near1, prox1, near[..], prox[..], forward, w, y, lim, x);
    }
  }

  // ----- columns

  // Line y0 has been passed when the sweep is at line y.
  predicate Passed(down: bool, y0: int, y: int) { if down then y0 <= y else y0 >= y }

  predicate Within(k: int, bound: real) { (k * k) as real < bound }

  // Along the line and then along the column.
  function Detour(x: int, y: int, x0: int, y0: int): int { Distance(x, x0) + Distance(y, y0) }

  /** Targets of lines that have been passed are not farther than they are along line and column. */
  ghost predicate PassedClose(src: Source, near: seq<Near>, w: nat, y: int, down: bool, bound: real) {
    && |near| == w
    && forall x, x0, y0 :: 0 <= x < w && Passed(down, y0, y) && src.IsTarget(x0, y0) && Within(Detour(x, y, x0, y0), bound) ==>
                             Close(near[x], x, y, Detour(x, y, x0, y0))
  }

  lemma WithinLess(k: int, l: int, bound: real)
    requires 0 <= k <= l && Within(l, bound)
    ensures Within(k, bound)
  {
    SquareMonotone(k, l);
  }

  // The next line of a sweep.
  lemma SweepGoesOn(src: Source, near0: seq<Near>, prox0: seq<int>, near: seq<Near>, prox: seq<int>, w: nat, y: int, down: bool, lim: Limits)
    requires GoodSource(src, w) && LineDone(src, near0, prox0, near, prox, w, y, lim)
    requires PassedClose(src, near0, w, if down then y - 1 else y + 1, down, lim.bound)
    ensures PassedClose(src, near, w, y, down, lim.bound)
  {
    var before := if down then y - 1 else y + 1;
    forall x, x0, y0 | 0 <= x < w && Passed(down, y0, y) && src.IsTarget(x0, y0) && Within(Detour(x, y, x0, y0), lim.bound)
      ensures Close(near[x], x, y, Detour(x, y, x0, y0))
    {
      assert PixelSettled(src, near0[x], prox0[x], near[x], prox[x], w, x, y, lim);
      if y0 != y { OneLineFarther(near0[x], near[x], x, y, x0, y0, before, lim.bound); }
    }
  }

  lemma OneLineFarther(near0: Near, near: Near, x: int, y: int, x0: int, y0: int, before: int, bound: real)
    requires Distance(y, before) == 1 && Distance(y, y0) == Distance(before, y0) + 1 && Within(Detour(x, y, x0, y0), bound)
    requires Within(Detour(x, before, x0, y0), bound) ==> Close(near0, x, before, Detour(x, before, x0, y0))
    requires Worse(near0, near, x, y, bound)
    ensures Close(near, x, y, Detour(x, y, x0, y0))
  {
    WithinLess(Detour(x, before, x0, y0), Detour(x, y, x0, y0), bound);
    StepDown(near0, x, before, Detour(x, before, x0, y0), y);
  }

  // ----- what one line of the result holds

  ghost predicate Found(prox: int, k: int) { 0 <= prox <= k * k }

  predicate Reachable(k: int, lim: Limits) { (k * k) as real <= lim.limit && Within(k, lim.bound) }

  /** No target of the lines that have been passed is missed within the limits. */
  ghost predicate RowFound(src: Source, prox: seq<int>, w: nat, y: int, down: bool, lim: Limits) {
    && |prox| == w
    && forall x, x0, y0 :: 0 <= x < w && Passed(down, y0, y) && src.IsTarget(x0, y0) && Reachable(Detour(x, y, x0, y0), lim) ==>
                             Found(prox[x], Detour(x, y, x0, y0))
  }

  lemma CloseIsFound(near: Near, prox: int, x: int, y: int, k: int, lim: Limits)
    requires Close(near, x, y, k) && Reachable(k, lim)
    requires near.At? && Sq(near, x, y) as real <= lim.limit ==> 0 <= prox <= Sq(near, x, y)
    ensures Found(prox, k)
  {
  }

  lemma LineIsFound(src: Source, near0: seq<Near>, prox0: seq<int>, near: seq<Near>, prox: seq<int>, w: nat, y: int, down: bool, lim: Limits)
    requires LineDone(src, near0, prox0, near, prox, w, y, lim) && PassedClose(src, near, w, y, down, lim.bound)
    ensures RowFound(src, prox, w, y, down, lim)
  {
    forall x, x0, y0 | 0 <= x < w && Passed(down, y0, y) && src.IsTarget(x0, y0) && Reachable(Detour(x, y, x0, y0), lim)
      ensures Found(prox[x], Detour(x, y, x0, y0))
    {
      assert PixelSettled(src, near0[x], prox0[x], near[x], prox[x], w, x, y, lim);
      CloseIsFound(near[x], prox[x], x, y, Detour(x, y, x0, y0), lim);
    }
  }

  ghost predicate RowExact(src: Source, prox: seq<int>, w: nat, y: int, limit: real) {
    |prox| == w && forall x :: 0 <= x < w ==> Exact(src, x, y, prox[x], limit)
  }

  // Proximities that were found stay found.
  ghost predicate NotFarther(prox0: seq<int>, prox: seq<int>) {
    |prox0| == |prox| && forall x :: 0 <= x < |prox0| && prox0[x] >= 0 ==> 0 <= prox[x] <= prox0[x]
  }

  lemma FoundStays(src: Source, prox0: seq<int>, prox: seq<int>, w: nat, y: int, down: bool, lim: Limits)
    requires RowFound(src, prox0, w, y, down, lim) && NotFarther(prox0, prox)
    ensures RowFound(src, prox, w, y, down, lim)
  {
    forall x, x0, y0 | 0 <= x < w && Passed(down, y0, y) && src.IsTarget(x0, y0) && Reachable(Detour(x, y, x0, y0), lim)
      ensures Found(prox[x], Detour(x, y, x0, y0))
    {
      assert Found(prox0[x], Detour(x, y, x0, y0));
    }
  }

  // ----- the sweeps

  // Line y of a sweep: proximities start from those of before.
  method SweepLine(src: Source, near: array<Near>, prox: array<int>, prox0: seq<int>, down: bool, w: nat, y: nat, lim: Limits)
    returns (row: seq<int>)
    requires GoodSource(src, w) && y < |src.lines| && GoodLimits(w, lim)
    requires RowExact(src, prox0, w, y, lim.limit) && Sweeping(src, near, prox, w, if down then y - 1 else y + 1, down, lim)
    modifies near, prox
    ensures RowExact(src, row, w, y, lim.limit) && NotFarther(prox0, row) && RowFound(src, row, w, y, down, lim)
    ensures Sweeping(src, near, prox, w, y, down, lim)
  {
    CopyLine(prox, prox0);
    ghost var near0 := near[..];
    assert LineReal(src, near[..], prox[..], w, y, lim.limit);
    ProcessLine(src, near, prox, down, w, y, lim);
    SweepGoesOn(src, near0, prox0, near[..], prox[..], w, y, down, lim);
    LineIsFound(src, near0, prox0, near[..], prox[..], w, y, down, lim);
    row := prox[..];
    assert forall x :: 0 <= x < w ==> near[x] == near[..][x];
    SettledNotFarther(src, near0, prox0, near[..], row, w, y, lim);
  }

  lemma SettledNotFarther(src: Source, near0: seq<Near>, prox0: seq<int>, near: seq<Near>, prox: seq<int>, w: nat, y: int, lim: Limits)
    requires LineDone(src, near0, prox0, near, prox, w, y, lim)
    ensures NotFarther(prox0, prox)
  {
    forall x | 0 <= x < w && prox0[x] >= 0 ensures 0 <= prox[x] <= prox0[x] {
      assert PixelSettled(src, near0[x], prox0[x], near[x], prox[x], w, x, y, lim);
    }
  }

  method CopyLine(a: array<int>, s: seq<int>)
    requires a.Length == |s|
    modifies a
    ensures a[..] == s
  {
    for i := 0 to a.Length
      invariant forall l :: 0 <= l < i ==> a[l] == s[l]
    {
      a[i] := s[i];
    }
  }

  function LimitsFor(maxDist: real, w: nat): Limits {
    var m := if maxDist < w as real then w as real else maxDist;
    Limits(m * m * 2.0, maxDist * maxDist)
  }

  lemma LimitsAreWide(maxDist: real, w: nat)
    ensures GoodLimits(w, LimitsFor(maxDist, w))
  {
    var m := if maxDist < w as real then w as real else maxDist;
    NoNegativeSquare(maxDist);
    forall k: int | 0 <= k < w ensures (k * k) as real < m * m * 2.0 {
      SquareStrict(k, w);
      SquareOfReal(w);
      RealSquareMonotone(w as real, m);
    }
  }

  lemma SquareOfReal(k: int)
    ensures (k * k) as real == (k as real) * (k as real)
  {
  }

  lemma RealSquareMonotone(a: real, b: real)
    requires 0.0 <= a <= b
    ensures a * a <= b * b
  {
    assert b * b - a * a == (b - a) * (b + a);
  }

  // Between lines: found targets are real, and close along the columns that were passed.
  ghost predicate Sweeping(src: Source, near: array<Near>, prox: array<int>, w: nat, y: int, down: bool, lim: Limits)
    reads near
  {
    && Buffers(near, prox, w) && (forall x :: 0 <= x < w ==> Real(src, near[x]))
    && PassedClose(src, near[..], w, y, down, lim.bound)
  }

  // The lines before line n of the first sweep.
  ghost predicate DoneDown(src: Source, work: seq<seq<int>>, w: nat, n: nat, lim: Limits) {
    |work| == n && forall y :: 0 <= y < n ==> RowExact(src, work[y], w, y, lim.limit) && RowFound(src, work[y], w, y, true, lim)
  }

  lemma OneRowDown(src: Source, work: seq<seq<int>>, row: seq<int>, w: nat, n: nat, lim: Limits)
    requires DoneDown(src, work, w, n, lim) && RowExact(src, row, w, n, lim.limit) && RowFound(src, row, w, n, true, lim)
    ensures DoneDown(src, work + [row], w, n + 1, lim)
  {
  }

  lemma BlankIsExact(src: Source, w: nat, y: int, lim: Limits)
    ensures RowExact(src, seq(w, _ => -1), w, y, lim.limit)
  {
  }

  // The first sweep, from top to bottom.
  method SweepDown(src: Source, w: nat, lim: Limits) returns (work: seq<seq<int>>)
    requires GoodSource(src, w) && GoodLimits(w, lim)
    ensures DoneDown(src, work, w, |src.lines|, lim)
  {
    var near, prox := new Near[w](_ => Nowhere), new int[w];
    work := [];
    for y := 0 to |src.lines|
      invariant DoneDown(src, work, w, y, lim) && Sweeping(src, near, prox, w, y - 1, true, lim)
    {
      BlankIsExact(src, w, y, lim);
      var row := SweepLine(src, near, prox, seq(w, _ => -1), true, w, y, lim);
      OneRowDown(src, work, row, w, y, lim);
      work := work + [row];
    }
  }

  // The lines from line n on of the second sweep, and the others as they were.
  ghost predicate DoneUp(src: Source, first: seq<seq<int>>, work: seq<seq<int>>, w: nat, n: int, lim: Limits) {
    && |work| == |first| == |src.lines|
    && (forall y :: 0 <= y < |work| && y < n ==> work[y] == first[y])
    && (forall y :: 0 <= y < |work| && y >= n ==>
          RowExact(src, work[y], w, y, lim.limit) && RowFound(src, work[y], w, y, false, lim) && NotFarther(first[y], work[y]))
  }

  lemma OneRowUp(src: Source, first: seq<seq<int>>, work: seq<seq<int>>, row: seq<int>, w: nat, n: nat, lim: Limits)
    requires n < |work| && DoneUp(src, first, work, w, n + 1, lim)
    requires RowExact(src, row, w, n, lim.limit) && RowFound(src, row, w, n, false, lim) && NotFarther(first[n], row)
    ensures DoneUp(src, first, work[n := row], w, n, lim)
  {
  }

  // The second sweep, from bottom to top.
  method SweepUp(src: Source, first: seq<seq<int>>, w: nat, lim: Limits) returns (work: seq<seq<int>>)
    requires GoodSource(src, w) && GoodLimits(w, lim) && DoneDown(src, first, w, |src.lines|, lim)
    ensures DoneUp(src, first, work, w, 0, lim)
  {
    var near, prox := new Near[w](_ => Nowhere), new int[w];
    work := first;
    var y := |src.lines| - 1;
    while y >= 0
      invariant -1 <= y < |src.lines| && DoneUp(src, first, work, w, y + 1, lim)
      invariant Sweeping(src, near, prox, w, y + 1, false, lim)
      decreases y
    {
      var row := SweepLine(src, near, prox, work[y], false, w, y, lim);
      OneRowUp(src, first, work, row, w, y, lim);
      work := work[y := row];
      y := y - 1;
    }
  }

  /** Whether a target may be missed that is k pixels away along line and column: it is beyond the
      maximal distance, or, should that be negative, too far for the image. */
  predicate InReach(k: int, w: nat, maxDist: real) {
    (k * k) as real <= maxDist * maxDist && (maxDist >= 0.0 || k * k < 2 * w * w)
  }

  /** What the proximities promise: every one that was found is the squared distance to some target and
      not beyond the maximal distance, and no target within it is nearer, along line and column, than
      what was found. */
  ghost predicate GoodProximity(src: Source, work: seq<seq<int>>, w: nat, maxDist: real) {
    && |work| == |src.lines| && (forall y :: 0 <= y < |work| ==> RowExact(src, work[y], w, y, maxDist * maxDist))
    && forall x, y, x0, y0 :: 0 <= y < |work| && 0 <= x < w && src.IsTarget(x0, y0) && InReach(Detour(x, y, x0, y0), w, maxDist) ==>
                                Found(work[y][x], Detour(x, y, x0, y0))
  }

  lemma InReachIsReachable(k: int, w: nat, maxDist: real)
    requires w > 0 && InReach(k, w, maxDist)
    ensures Reachable(k, LimitsFor(maxDist, w))
  {
    var m := if maxDist < w as real then w as real else maxDist;
    SquareOfReal(w);
    if maxDist >= 0.0 {
      RealSquareMonotone(maxDist, m);
      PositiveSquare(m);
    } else {
      assert (k * k) as real < (2 * w * w) as real;
      assert (2 * w * w) as real == (w as real) * (w as real) * 2.0;
    }
  }

  lemma PositiveSquare(m: real)
    requires m > 0.0
    ensures m * m > 0.0 && m * m < m * m * 2.0
  {
  }

  lemma BothSweepsFind(src: Source, first: seq<seq<int>>, work: seq<seq<int>>, w: nat, lim: Limits, x: int, y: int, x0: int, y0: int)
    requires GoodSource(src, w) && DoneDown(src, first, w, |src.lines|, lim) && DoneUp(src, first, work, w, 0, lim)
    requires 0 <= y < |work| && 0 <= x < w && src.IsTarget(x0, y0) && Reachable(Detour(x, y, x0, y0), lim)
    ensures |work[y]| == w && Found(work[y][x], Detour(x, y, x0, y0))
  {
    assert RowFound(src, work[y], w, y, false, lim) && RowFound(src, first[y], w, y, true, lim);
    FoundStays(src, first[y], work[y], w, y, true, lim);
    assert Passed(true, y0, y) || Passed(false, y0, y);
  }

  /** The squared distance of every pixel to a target, or -1, within a maximal distance. */
  method ComputeProximity(src: Source, w: nat, maxDist: real) returns (work: seq<seq<int>>)
    requires GoodSource(src, w)
    ensures GoodProximity(src, work, w, maxDist)
    ensures forall x, y :: 0 <= y < |work| && 0 <= x < w && work[y][x] >= 0 ==> work[y][x] as real <= maxDist * maxDist
    ensures forall x, y :: 0 <= y < |work| && 0 <= x < w && work[y][x] >= 0 ==>
              exists x0, y0 :: src.IsTarget(x0, y0) && work[y][x] == (x0 - x) * (x0 - x) + (y0 - y) * (y0 - y)
    ensures maxDist >= 0.0 ==>
              forall x, y, x0, y0 :: 0 <= y < |work| && 0 <= x < w && src.IsTarget(x0, y0) ==>
                var k := Detour(x, y, x0, y0); (k * k) as real <= maxDist * maxDist ==> 0 <= work[y][x] <= k * k
  {
    var lim := LimitsFor(maxDist, w);
    LimitsAreWide(maxDist, w);
    var first := SweepDown(src, w, lim);
    work := SweepUp(src, first, w, lim);
    forall x, y, x0, y0 | 0 <= y < |work| && 0 <= x < w && src.IsTarget(x0, y0) && InReach(Detour(x, y, x0, y0), w, maxDist)
      ensures Found(work[y][x], Detour(x, y, x0, y0))
    {
      InReachIsReachable(Detour(x, y, x0, y0), w, maxDist);
      BothSweepsFind(src, first, work, w, lim, x, y, x0, y0);
    }
    GoodMeans(src, work, w, maxDist);
  }

  // The promise spelled out.
  lemma GoodMeans(src: Source, work: seq<seq<int>>, w: nat, maxDist: real)
    requires GoodProximity(src, work, w, maxDist)
    ensures forall x, y :: 0 <= y < |work| && 0 <= x < w && work[y][x] >= 0 ==> work[y][x] as real <= maxDist * maxDist
    ensures forall x, y :: 0 <= y < |work| && 0 <= x < w && work[y][x] >= 0 ==>
              exists x0, y0 :: src.IsTarget(x0, y0) && work[y][x] == (x0 - x) * (x0 - x) + (y0 - y) * (y0 - y)
    ensures maxDist >= 0.0 ==>
              forall x, y, x0, y0 :: 0 <= y < |work| && 0 <= x < w && src.IsTarget(x0, y0) ==>
                var k := Detour(x, y, x0, y0); (k * k) as real <= maxDist * maxDist ==> 0 <= work[y][x] <= k * k
  {
    forall x, y | 0 <= y < |work| && 0 <= x < w && work[y][x] >= 0
      ensures work[y][x] as real <= maxDist * maxDist
      ensures exists x0, y0 :: src.IsTarget(x0, y0) && work[y][x] == (x0 - x) * (x0 - x) + (y0 - y) * (y0 - y)
    {
      assert RowExact(src, work[y], w, y, maxDist * maxDist);
      assert Exact(src, x, y, work[y][x], maxDist * maxDist);
      var near: Near :| near.At? && src.IsTarget(near.x, near.y) && Sq(near, x, y) == work[y][x];
      assert src.IsTarget(near.x, near.y) && work[y][x] == (near.x - x) * (near.x - x) + (near.y - y) * (near.y - y);
    }
    if maxDist >= 0.0 {
      forall x, y, x0, y0 | 0 <= y < |work| && 0 <= x < w && src.IsTarget(x0, y0)
        ensures var k := Detour(x, y, x0, y0); (k * k) as real <= maxDist * maxDist ==> 0 <= work[y][x] <= k * k
      {
        var k := Detour(x, y, x0, y0);
        if (k * k) as real <= maxDist * maxDist { assert InReach(k, w, maxDist) && Found(work[y][x], k); }
      }
    }
  }

  /** Proximity zero means target, and targets have proximity zero. */
  lemma ZeroOnTargets(src: Source, work: seq<seq<int>>, w: nat, maxDist: real, x: nat, y: nat)
    requires GoodSource(src, w) && GoodProximity(src, work, w, maxDist) && y < |work| && x < w
    ensures work[y][x] == 0 <==> src.IsTarget(x, y)
  {
    assert RowExact(src, work[y], w, y, maxDist * maxDist);
    if work[y][x] == 0 {
      var near: Near :| near.At? && src.IsTarget(near.x, near.y) && Sq(near, x, y) == 0;
      SquaresPositive(near, x, y);
    }
    if src.IsTarget(x, y) {
      NoNegativeSquare(maxDist);
      SquareStrict(0, w);
      assert Detour(x, y, x, y) == 0 && InReach(0, w, maxDist);
      assert Found(work[y][x], Detour(x, y, x, y));
    }
  }

  lemma NoNegativeSquare(a: real)
    ensures a * a >= 0.0
  {
    if a < 0.0 { assert a * a == (-a) * (-a); }
  }

  /** No proximity beats the nearest target. */
  lemma NeverTooNear(src: Source, work: seq<seq<int>>, w: nat, maxDist: real, x: nat, y: nat, k: int)
    requires GoodProximity(src, work, w, maxDist) && y < |work| && x < w && work[y][x] >= 0
    requires forall near: Near :: near.At? && src.IsTarget(near.x, near.y) ==> k <= Sq(near, x, y)
    ensures k <= work[y][x]
  {
    assert RowExact(src, work[y], w, y, maxDist * maxDist);
  }

  /** By default nothing is out of reach: if there is any target, every pixel gets a proximity, and it
      is at most the way to the target along line and column. */
  lemma DefaultReachesAll(src: Source, work: seq<seq<int>>, w: nat, x: nat, y: nat, x0: nat, y0: nat)
    requires GoodSource(src, w) && GoodProximity(src, work, w, (w + |src.lines|) as real)
    requires y < |work| && x < w && src.IsTarget(x0, y0)
    ensures 0 <= work[y][x] <= Detour(x, y, x0, y0) * Detour(x, y, x0, y0)
  {
    InReachByDefault(w, |src.lines|, Detour(x, y, x0, y0));
    assert Found(work[y][x], Detour(x, y, x0, y0));
  }

  lemma InReachByDefault(w: nat, h: nat, k: int)
    requires 0 <= k < w + h
    ensures InReach(k, w, (w + h) as real)
  {
    SquareStrict(k, w + h);
    SquareOfReal(w + h);
  }
}
