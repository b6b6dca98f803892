/** Distances of pixels to the nearest target, found in two sweeps over the image.  Distances are
    kept as their squares, which are whole numbers. */
module Proximity {

  datatype Near = Nowhere | At(x: int, y: int)

  /** An image, and the values that make a pixel a target: these, or any but zero. */
  datatype Source = Source(lines: seq<seq<int>>, targets: seq<int>) {
    predicate IsTarget(x: int, y: int) {
      && 0 <= y < |lines| && 0 <= x < |lines[y]|
      && if targets == [] then lines[y][x] != 0 else lines[y][x] in targets
    }
  }

  ghost predicate GoodSource(src: Source, w: nat) { forall y :: 0 <= y < |src.lines| ==> |src.lines[y]| == w }

  function Sq(near: Near, x: int, y: int): int
    requires near.At?
  {
    (near.x - x) * (near.x - x) + (near.y - y) * (near.y - y)
  }

  // ----- what is looked for

  // A target that was found, or none.
  ghost predicate Real(src: Source, near: Near) { near.At? ==> src.IsTarget(near.x, near.y) }

  /** A proximity that was found is the distance to some target, and not beyond the limit. */
  ghost predicate Exact(src: Source, x: int, y: int, d: int, limit: real) {
    d == -1 || (0 <= d && d as real <= limit && exists near: Near :: near.At? && src.IsTarget(near.x, near.y) && Sq(near, x, y) == d)
  }

  // Near is within distance k of a pixel.
  predicate Close(near: Near, x: int, y: int, k: int) { near.At? && Sq(near, x, y) <= k * k }

  lemma SquareMonotone(a: int, b: int)
    requires 0 <= a <= b
    ensures a * a <= b * b
  {
  }

  lemma SquareStrict(a: int, b: int)
    requires 0 <= a < b
    ensures a * a < b * b && b * b == (-b) * (-b)
  {
  }

  lemma SquareBounds(a: int, k: int)
    requires a * a <= k * k && k >= 0
    ensures -k <= a <= k
  {
    if a > k { SquareStrict(k, a); }
    if a < -k { SquareStrict(k, -a); }
  }

  // One step to the side makes it farther by one at most.
  lemma StepAside(near: Near, x: int, y: int, k: int, x': int)
    requires Close(near, x, y, k) && k >= 0 && -1 <= x' - x <= 1
    ensures Close(near, x', y, k + 1)
  {
    var a, b := near.x - x, near.y - y;
    assert b * b >= 0;
    SquareBounds(a, k);
    var c := near.x - x';
    if x' == x + 1 {
      assert c == a - 1 && c * c == a * a - 2 * a + 1;
    } else if x' == x - 1 {
      assert c == a + 1 && c * c == a * a + 2 * a + 1;
    }
    assert (k + 1) * (k + 1) == k * k + 2 * k + 1;
  }

  lemma StepDown(near: Near, x: int, y: int, k: int, y': int)
    requires Close(near, x, y, k) && k >= 0 && -1 <= y' - y <= 1
    ensures Close(near, x, y', k + 1)
  {
    if near.At? {
      StepAside(At(near.y, near.x), y, x, k, y');
    }
  }

  // ----- one pixel

  datatype Limits = Limits(bound: real, limit: real)

  // The better of two, the second one only when it is within the bound.
  predicate Worse(near: Near, than: Near, x: int, y: int, bound: real) {
    near.At? && Sq(near, x, y) as real < bound ==> than.At? && Sq(than, x, y) <= Sq(near, x, y)
  }

  /** What one pixel that is no target keeps of the targets of three neighbours. */
  method Choose(own: Near, last: Near, next: Near, x: int, y: int, bound: real) returns (near: Near, distSq: real)
    ensures near == Nowhere || near == own || near == last || near == next
    ensures Worse(own, near, x, y, bound) && Worse(last, near, x, y, bound) && Worse(next, near, x, y, bound)
    ensures near.At? ==> distSq == Sq(near, x, y) as real
  {
    distSq := bound;
    near := own;
    if own.At? {
      var d := Sq(own, x, y) as real;
      if d < distSq { distSq := d; } else { near := Nowhere; }
    }
    if last.At? {
      var d := Sq(last, x, y) as real;
      if d < distSq { distSq, near := d, last; }
    }
    if next.At? {
      var d := Sq(next, x, y) as real;
      if d < distSq { distSq, near := d, next; }
    }
  }

  /** The proximity of a pixel after a target was considered for it. */
  function Updated(prox: int, near: Near, x: int, y: int, limit: real): int {
    if near.At? && Sq(near, x, y) as real <= limit && (prox < 0 || Sq(near, x, y) < prox) then Sq(near, x, y) else prox
  }

  // ----- one line, in one direction

  function Position(forward: bool, w: nat, n: int): int { if forward then n else w - 1 - n }

  // What is true of pixel x before and after a line is processed.
  ghost predicate PixelDone(src: Source, near0: Near, prox0: int, near: Near, prox: int, x: int, y: int, lim: Limits) {
    && Real(src, near) && Exact(src, x, y, prox, lim.limit)
    && Worse(near0, near, x, y, lim.bound)
    && (prox0 >= 0 ==> 0 <= prox <= prox0)
    && (near.At? && Sq(near, x, y) as real <= lim.limit ==> 0 <= prox <= Sq(near, x, y))
  }

  // Targets of this line that have been passed are not farther than they are along the line.
  ghost predicate RowClose(src: Source, near: seq<Near>, forward: bool, w: nat, y: int, n: int) {
    |near| == w && forall m, k :: 0 <= m <= k < n <= w && src.IsTarget(Position(forward, w, m), y) ==>
                     Close(near[Position(forward, w, k)], Position(forward, w, k), y, k - m)
  }

  ghost predicate WideBound(w: nat, bound: real) { forall k: int :: 0 <= k < w ==> (k * k) as real < bound }

  ghost predicate GoodLimits(w: nat, lim: Limits) { WideBound(w, lim.bound) && 0.0 <= lim.limit }

  lemma WithinBound(w: nat, bound: real, k: int)
    requires WideBound(w, bound) && 0 <= k < w
    ensures (k * k) as real < bound
  {
  }

  // The next pixel is one farther from a target than the one before was.
  lemma CloseToo(last: Near, near: Near, x0: int, x: int, y: int, k: int, w: nat, bound: real)
    requires Close(last, x0, y, k) && 0 <= k && k + 1 < w && -1 <= x - x0 <= 1 && WideBound(w, bound)
    requires Worse(last, near, x, y, bound)
    ensures Close(near, x, y, k + 1)
  {
    StepAside(last, x0, y, k, x);
    WithinBound(w, bound, k + 1);
  }

  lemma AtTarget(x: int, y: int, k: int)
    ensures Close(At(x, y), x, y, k)
  {
  }

  // The next pixel is close to the targets that were passed before.
  lemma RowGoesOn(src: Source, near: seq<Near>, near': Near, forward: bool, w: nat, y: int, n: nat, lim: Limits)
    requires n < w == |near| && RowClose(src, near, forward, w, y, n) && WideBound(w, lim.bound)
    requires src.IsTarget(Position(forward, w, n), y) ==> near' == At(Position(forward, w, n), y)
    requires !src.IsTarget(Position(forward, w, n), y) && n > 0 ==>
               Worse(near[Position(forward, w, n - 1)], near', Position(forward, w, n), y, lim.bound)
    ensures RowClose(src, near[Position(forward, w, n) := near'], forward, w, y, n + 1)
  {
    var x := Position(forward, w, n);
    forall m | 0 <= m <= n && src.IsTarget(Position(forward, w, m), y) ensures Close(near', x, y, n - m) {
      if src.IsTarget(x, y) {
        AtTarget(x, y, n - m);
      } else {
        var x0 := Position(forward, w, n - 1);
        assert Close(near[x0], x0, y, n - 1 - m);
        CloseToo(near[x0], near', x0, x, y, n - 1 - m, w, lim.bound);
      }
    }
    RowExtended(src, near, near', forward, w, y, n);
  }

  lemma RowExtended(src: Source, near: seq<Near>, near': Near, forward: bool, w: nat, y: int, n: nat)
    requires n < w == |near| && RowClose(src, near, forward, w, y, n)
    requires forall m :: 0 <= m <= n && src.IsTarget(Position(forward, w, m), y) ==> Close(near', Position(forward, w, n), y, n - m)
    ensures RowClose(src, near[Position(forward, w, n) := near'], forward, w, y, n + 1)
  {
  }

  // ----- one line

  /** The buffers of a line: the target that is nearest so far, and the proximity, for every pixel. */
  ghost predicate Buffers(near: array<Near>, prox: array<int>, w: nat) {
    near.Length == prox.Length == w
  }

  // The pixels processed so far, and the others as they were.
  ghost predicate LineGoes(src: Source, near0: seq<Near>, prox0: seq<int>, near: seq<Near>, prox: seq<int>,
                           forward: bool, w: nat, y: int, n: int, lim: Limits)
  {
    && |near0| == |prox0| == |near| == |prox| == w && 0 <= n <= w
    && (forall k :: 0 <= k < n <= w ==>
          var x := Position(forward, w, k); PixelDone(src, near0[x], prox0[x], near[x], prox[x], x, y, lim))
    && (forall k :: n <= k < w ==> var x := Position(forward, w, k); near[x] == near0[x] && prox[x] == prox0[x])
    && RowClose(src, near, forward, w, y, n)
  }

  // What holds between lines: targets are real, and proximities exact.
  ghost predicate LineReal(src: Source, near: seq<Near>, prox: seq<int>, w: nat, y: int, limit: real) {
    && |near| == |prox| == w
    && forall x :: 0 <= x < w ==> Real(src, near[x]) && Exact(src, x, y, prox[x], limit)
  }

  method IsTargetPixel(src: Source, x: int, y: int) returns (isTarget: bool)
    requires 0 <= y < |src.lines| && 0 <= x < |src.lines[y]|
    ensures isTarget == src.IsTarget(x, y)
  {
    var v := src.lines[y][x];
    if src.targets == [] {
      isTarget := v != 0;
    } else {
      isTarget := false;
      for i := 0 to |src.targets|
        invariant isTarget == (v in src.targets[..i])
      {
        if v == src.targets[i] { isTarget := true; }
      }
      assert src.targets[..|src.targets|] == src.targets;
    }
  }

  // A pixel that is a target.
  lemma TargetDone(src: Source, near0: Near, prox0: int, x: int, y: int, lim: Limits)
    requires src.IsTarget(x, y) && prox0 >= -1 && 0.0 <= lim.limit
    ensures PixelDone(src, near0, prox0, At(x, y), 0, x, y, lim)
  {
    var near := At(x, y);
    assert src.IsTarget(near.x, near.y) && Sq(near, x, y) == 0;
    if near0.At? { SquaresPositive(near0, x, y); }
  }

  lemma SquaresPositive(near: Near, x: int, y: int)
    requires near.At?
    ensures Sq(near, x, y) >= 0 && (Sq(near, x, y) == 0 <==> near == At(x, y))
  {
    var a, b := near.x - x, near.y - y;
    SquareZero(a);
    SquareZero(b);
  }

  lemma SquareZero(a: int)
    ensures a * a >= 0 && (a * a == 0 <==> a == 0)
  {
    if a > 0 { SquareStrict(0, a); } else if a < 0 { SquareStrict(0, -a); }
  }

  // A pixel that has chosen among real targets.
  lemma ChoiceDone(src: Source, near0: Near, prox0: int, near: Near, x: int, y: int, lim: Limits)
    requires Real(src, near) && Exact(src, x, y, prox0, lim.limit) && Worse(near0, near, x, y, lim.bound)
    ensures PixelDone(src, near0, prox0, near, Updated(prox0, near, x, y, lim.limit), x, y, lim)
  {
    if near.At? { SquaresPositive(near, x, y); }
  }

  method ProcessPixel(src: Source, near: array<Near>, prox: array<int>, forward: bool, w: nat, y: nat, n: nat, lim: Limits)
    requires GoodSource(src, w) && y < |src.lines| && Buffers(near, prox, w) && n < w && 0.0 <= lim.limit
    requires LineReal(src, near[..], prox[..], w, y, lim.limit)
    modifies near, prox
    ensures var x := Position(forward, w, n);
      && near[..] == old(near[..])[x := near[x]] && prox[..] == old(prox[..])[x := prox[x]]
      && PixelDone(src, old(near[x]), old(prox[x]), near[x], prox[x], x, y, lim)
      && (src.IsTarget(x, y) ==> near[x] == At(x, y))
      && (!src.IsTarget(x, y) && n > 0 ==> Worse(old(near[Position(forward, w, n - 1)]), near[x], x, y, lim.bound))
  {
    var x := Position(forward, w, n);
    assert near[..][x] == near[x] && prox[..][x] == prox[x];
    var isTarget := IsTargetPixel(src, x, y);
    if isTarget {
      TargetDone(src, near[x], prox[x], x, y, lim);
      prox[x] := 0;
      near[x] := At(x, y);
      return;
    }
    var last, next := Nowhere, Nowhere;
    if n > 0 { last := near[Position(forward, w, n - 1)]; assert last == near[..][Position(forward, w, n - 1)]; }
    if n + 1 < w { next := near[Position(forward, w, n + 1)]; assert next == near[..][Position(forward, w, n + 1)]; }
    var chosen, distSq := Choose(near[x], last, next, x, y, lim.bound);
    ChoiceDone(src, near[x], prox[x], chosen, x, y, lim);
    near[x] := chosen;
    if chosen.At? && distSq <= lim.limit && (prox[x] < 0 || Sq(chosen, x, y) < prox[x]) {
      prox[x] := Sq(chosen, x, y);
    }
  }

  lemma PixelKeepsReal(src: Source, near: seq<Near>, prox: seq<int>, w: nat, x: nat, y: int, near': Near, prox': int, limit: real)
    requires LineReal(src, near, prox, w, y, limit) && x < w && Real(src, near') && Exact(src, x, y, prox', limit)
    ensures LineReal(src, near[x := near'], prox[x := prox'], w, y, limit)
  {
  }

  lemma PixelGoes(src: Source, near0: seq<Near>, prox0: seq<int>, near: seq<Near>, prox: seq<int>,
                  forward: bool, w: nat, y: int, n: nat, lim: Limits, near': Near, prox': int)
    requires n < w && LineGoes(src, near0, prox0, near, prox, forward, w, y, n, lim) && WideBound(w, lim.bound)
    requires var x := Position(forward, w, n); PixelDone(src, near0[x], prox0[x], near', prox', x, y, lim)
    requires src.IsTarget(Position(forward, w, n), y) ==> near' == At(Position(forward, w, n), y)
    requires !src.IsTarget(Position(forward, w, n), y) && n > 0 ==>
               Worse(near[Position(forward, w, n - 1)], near', Position(forward, w, n), y, lim.bound)
    ensures var x := Position(forward, w, n);
            LineGoes(src, near0, prox0, near[x := near'], prox[x := prox'], forward, w, y, n + 1, lim)
  {
    RowGoesOn(src, near, near', forward, w, y, n, lim);
  }

  /** One pass along a line, in either direction. */
  method ProcessProximityLine(src: Source, near: array<Near>, prox: array<int>, forward: bool, w: nat, y: nat, lim: Limits)
    requires GoodSource(src, w) && y < |src.lines| && Buffers(near, prox, w) && GoodLimits(w, lim)
    requires LineReal(src, near[..], prox[..], w, y, lim.limit)
    modifies near, prox
    ensures LineGoes(src, old(near[..]), old(prox[..]), near[..], prox[..], forward, w, y, w, lim)
    ensures LineReal(src, near[..], prox[..], w, y, lim.limit)
  {
    for n := 0 to w
      invariant LineGoes(src, old(near[..]), old(prox[..]), near[..], prox[..], forward, w, y, n, lim)
      invariant LineReal(src, near[..], prox[..], w, y, lim.limit)
    {
      ghost var near1, prox1, x := near[..], prox[..], Position(forward, w, n);
      ProcessPixel(src, near, prox, forward, w, y, n, lim);
      PixelGoes(src, old(near[..]), old(prox[..]), near1, prox1, forward, w, y, n, lim, near[x], prox[x]);
      PixelKeepsReal(src, near1, prox1, w, x, y, near[x], prox[x], lim.limit);
    }
  }
}
