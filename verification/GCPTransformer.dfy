/** Transformers between pixels and georeferenced coordinates: made from control points, and applied to
    arrays of coordinates in place.  The first system of a control point is the pixel. */
module GCPTransformer {
  import opened Common
  import opened LinearSystems
  import opened SolveMat
  import opened GeoRef
  import opened Fit

  /** The polynomials of both directions, and which of them is the default one. */
  datatype Transformer = Transformer(reversed: bool, order: int, toGeoX: Vector, toGeoY: Vector, fromGeoX: Vector, fromGeoY: Vector) {
    predicate Usable() {
      && 1 <= order <= MAX_ORDER
      && |toGeoX| == |toGeoY| == |fromGeoX| == |fromGeoY| == NumTerms(order)
    }
  }

  /** What a transformer makes of one point; dstToSrc is from georeferenced coordinates to pixels,
      unless the transformer is reversed. */
  function Moved(t: Transformer, dstToSrc: bool, x: real, y: real): Placed
    requires t.Usable()
  {
    if dstToSrc != t.reversed then Georef(x, y, t.fromGeoX, t.fromGeoY, NumTerms(t.order))
    else Georef(x, y, t.toGeoX, t.toGeoY, NumTerms(t.order))
  }

  lemma {:induction false} AllActive(l: seq<ControlPoint>, k: nat, e1: array<real>, n1: array<real>, e2: array<real>, n2: array<real>,
                                     status: array<int>)
    requires k <= |l| == e1.Length == n1.Length == e2.Length == n2.Length == status.Length
    requires forall i :: 0 <= i < |l| ==> status[i] == 1 && l[i] == ControlPoint(e1[i], n1[i], e2[i], n2[i])
    ensures ActiveAmong(k, e1, n1, e2, n2, status) == l[..k]
  {
    if k > 0 { AllActive(l, k - 1, e1, n1, e2, n2, status); }
  }

  // The arrays that are worked on, all points being active.
  method WorkingPoints(gcps: seq<ControlPoint>) returns (cp: ControlPoints)
    ensures fresh(cp) && cp.Valid() && cp.Points() == gcps
  {
    var n := |gcps|;
    var e1, n1, e2, n2, status := new real[n], new real[n], new real[n], new real[n], new int[n];
    for i := 0 to n
      invariant forall k :: 0 <= k < i ==> status[k] == 1 && gcps[k] == ControlPoint(e1[k], n1[k], e2[k], n2[k])
    {
      status[i] := 1;
      e1[i], n1[i], e2[i], n2[i] := gcps[i].e1, gcps[i].n1, gcps[i].e2, gcps[i].n2;
    }
    AllActive(gcps, n, e1, n1, e2, n2, status);
    cp := new ControlPoints(n, e1, n1, e2, n2, status);
  }

  // No polynomial of so many terms, other than zero, is zero at all points, in either system.
  ghost predicate Spread(gcps: seq<ControlPoint>, size: nat) { !OnOneCurve(gcps, size) && !OnOneCurve(Mirrored(gcps), size) }

  // The polynomials of a transformer have that order and fit the control points, in both directions.
  ghost predicate FittedTo(t: Transformer, gcps: seq<ControlPoint>, order: int, reversed: bool, size: nat) {
    && t.Usable() && t.order == order && t.reversed == reversed
    && Fitted(gcps, t.toGeoX, t.toGeoY, size) && Fitted(Mirrored(gcps), t.fromGeoX, t.fromGeoY, size)
  }

  /** Makes a transformer from control points, of the requested order, or, when none is requested, of
      order 2 from six points on and of order 1 with fewer.  It fails when the order is none of 1 to 3,
      when there are too few points, and exactly when they lie on one curve of the order in either
      system. */
  method GDALCreateGCPTransformer(gcps: seq<ControlPoint>, requested: int, reversed: bool) returns (r: Outcome<Transformer, Status>)
    ensures requested != 0 && !(1 <= requested <= 3) <==> r == Failed(ParameterError)
    ensures 1 <= requested <= 3 ==>
              var size := if requested == 1 then 3 else if requested == 2 then 6 else 10;
              if |gcps| < size then r == Failed(NotEnoughPoints)
              else if !Spread(gcps, size) then r == Failed(Unsolvable)
              else r.Done? && FittedTo(r.value, gcps, requested, reversed, size)
    ensures requested == 0 && |gcps| >= 6 ==>
              if !Spread(gcps, 6) then r == Failed(Unsolvable) else r.Done? && FittedTo(r.value, gcps, 2, reversed, 6)
    ensures requested == 0 && |gcps| < 6 ==>
              if |gcps| < 3 then r == Failed(NotEnoughPoints)
              else if !Spread(gcps, 3) then r == Failed(Unsolvable)
              else r.Done? && FittedTo(r.value, gcps, 1, reversed, 3)
  {
    var order := requested;
    if order == 0 {
      if |gcps| >= 10 {
        order := 2;
      } else if |gcps| >= 6 {
        order := 2;
      } else {
        order := 1;
      }
    }
    var cp := WorkingPoints(gcps);
    var status, toX, toY, fromX, fromY := ComputeGeorefEquations(cp, order);
    if status != Success { return Failed(status); }
    return Done(Transformer(reversed, order, toX, toY, fromX, fromY));
  }

  /** Transforms points in place, each of them by the polynomials of the direction. */
  method GDALGCPTransform(t: Transformer, dstToSrc: bool, n: nat, x: array<real>, y: array<real>)
    requires t.Usable() && n <= x.Length && n <= y.Length && x != y
    modifies x, y
    ensures forall i :: 0 <= i < n ==> Placed(x[i], y[i]) == Moved(t, dstToSrc, old(x[i]), old(y[i]))
    ensures forall i :: n <= i < x.Length ==> x[i] == old(x[i])
    ensures forall i :: n <= i < y.Length ==> y[i] == old(y[i])
  {
    var back := if t.reversed then !dstToSrc else dstToSrc;
    for i := 0 to n
      invariant forall k :: 0 <= k < i ==> Placed(x[k], y[k]) == Moved(t, dstToSrc, old(x[k]), old(y[k]))
      invariant forall k :: i <= k < x.Length ==> x[k] == old(x[k])
      invariant forall k :: i <= k < y.Length ==> y[k] == old(y[k])
    {
      var r;
      if back {
        r := CRSGeoref(x[i], y[i], t.fromGeoX, t.fromGeoY, t.order);
      } else {
        r := CRSGeoref(x[i], y[i], t.toGeoX, t.toGeoY, t.order);
      }
      x[i], y[i] := r.value.e, r.value.n;
    }
  }

  // The polynomials of an exact fit run through the control points, in both directions.
  lemma ExactMoves(t: Transformer, gcps: seq<ControlPoint>, k: nat)
    requires t.Usable() && |gcps| == NumTerms(t.order) && k < |gcps|
    requires Fitted(gcps, t.toGeoX, t.toGeoY, NumTerms(t.order)) && Fitted(Mirrored(gcps), t.fromGeoX, t.fromGeoY, NumTerms(t.order))
    ensures Moved(t, t.reversed, gcps[k].e1, gcps[k].n1) == Placed(gcps[k].e2, gcps[k].n2)
    ensures Moved(t, !t.reversed, gcps[k].e2, gcps[k].n2) == Placed(gcps[k].e1, gcps[k].n1)
  {
    var m := Mirrored(gcps);
    assert Georef(m[k].e1, m[k].n1, t.fromGeoX, t.fromGeoY, NumTerms(t.order)) == Placed(m[k].e2, m[k].n2);
  }

  // The coordinates of the control points in the first system, or in the second.
  ghost predicate At(gcps: seq<ControlPoint>, geo: bool, x: seq<real>, y: seq<real>) {
    && |x| == |y| == |gcps|
    && forall k :: 0 <= k < |gcps| ==> Placed(x[k], y[k]) == if geo then Placed(gcps[k].e2, gcps[k].n2) else Placed(gcps[k].e1, gcps[k].n1)
  }

  // Moves the coordinates of all control points from one system to the other.
  method MoveAll(t: Transformer, gcps: seq<ControlPoint>, geo: bool, x: array<real>, y: array<real>)
    requires t.Usable() && |gcps| == NumTerms(t.order) && x != y && At(gcps, geo, x[..], y[..])
    requires Fitted(gcps, t.toGeoX, t.toGeoY, NumTerms(t.order)) && Fitted(Mirrored(gcps), t.fromGeoX, t.fromGeoY, NumTerms(t.order))
    modifies x, y
    ensures At(gcps, !geo, x[..], y[..])
  {
    ghost var x0, y0 := x[..], y[..];
    GDALGCPTransform(t, geo != t.reversed, |gcps|, x, y);
    forall k | 0 <= k < |gcps|
      ensures Placed(x[k], y[k]) == if geo then Placed(gcps[k].e1, gcps[k].n1) else Placed(gcps[k].e2, gcps[k].n2)
    {
      assert Placed(x0[k], y0[k]) == if geo then Placed(gcps[k].e2, gcps[k].n2) else Placed(gcps[k].e1, gcps[k].n1);
      ExactMoves(t, gcps, k);
    }
  }

  lemma AtOnePlace(gcps: seq<ControlPoint>, geo: bool, x: seq<real>, y: seq<real>, x': seq<real>, y': seq<real>)
    requires At(gcps, geo, x, y) && At(gcps, geo, x', y')
    ensures x == x' && y == y'
  {
    forall k | 0 <= k < |gcps| ensures x[k] == x'[k] && y[k] == y'[k] {
      assert Placed(x[k], y[k]) == Placed(x'[k], y'[k]);
    }
  }

  /** A transformer made from as many control points as a polynomial has coefficients takes the pixels
      of all of them to their georeferenced coordinates, and those back to the pixels. */
  method ThereAndBack(gcps: seq<ControlPoint>, requested: int, reversed: bool, x: array<real>, y: array<real>)
    returns (r: Outcome<Transformer, Status>, geoX: seq<real>, geoY: seq<real>)
    requires if requested == 0 then |gcps| == 3 || |gcps| == 6 else 1 <= requested <= MAX_ORDER && |gcps| == NumTerms(requested)
    requires x != y && At(gcps, false, x[..], y[..])
    modifies x, y
    ensures r.Failed? <==> OnOneCurve(gcps, |gcps|) || OnOneCurve(Mirrored(gcps), |gcps|)
    ensures r.Done? ==> At(gcps, true, geoX, geoY)
    ensures x[..] == old(x[..]) && y[..] == old(y[..])
  {
    ghost var x0, y0 := x[..], y[..];
    r := GDALCreateGCPTransformer(gcps, requested, reversed);
    geoX, geoY := [], [];
    if r.Failed? { return; }
    MoveAll(r.value, gcps, false, x, y);
    geoX, geoY := x[..], y[..];
    MoveAll(r.value, gcps, true, x, y);
    AtOnePlace(gcps, false, x0, y0, x[..], y[..]);
  }
}
