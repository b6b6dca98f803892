/** Polynomial georeferencing: fitting the coefficients to control points, and applying them. */
module GeoRef {
  import opened Common
  import opened LinearSystems
  import opened SolveMat
  import opened LeastSquares

  const MAX_ORDER := 3

  /** The terms of a polynomial in two variables, numbered from 1. */
  function Term(k: int, e: real, n: real): real {
    match k
    case 1 => 1.0
    case 2 => e
    case 3 => n
    case 4 => e * e
    case 5 => e * n
    case 6 => n * n
    case 7 => e * e * e
    case 8 => e * e * n
    case 9 => e * n * n
    case 10 => n * n * n
    case _ => 0.0
  }

  function NumTerms(order: nat): nat { (order + 1) * (order + 2) / 2 }

  function Terms(e: real, n: real, size: nat): (r: Vector)
    ensures |r| == size
  {
    seq(size, k requires 0 <= k < size => Term(k + 1, e, n))
  }

  // ----- applying a polynomial

  datatype Placed = Placed(e: real, n: real)

  /** Transforms one coordinate pair. */
  method CRSGeoref(e1: real, n1: real, E: Vector, N: Vector, order: int) returns (r: Outcome<Placed, Status>)
    requires 1 <= order <= MAX_ORDER ==> |E| == |N| == NumTerms(order)
    ensures r.Failed? <==> !(1 <= order <= MAX_ORDER)
    ensures r.Failed? ==> r.error == ParameterError
    ensures r.Done? ==> r.value == Georef(e1, n1, E, N, NumTerms(order))
  {
    match order
    case 1 =>
      FirstOrder(e1, n1, E, 3);
      FirstOrder(e1, n1, N, 3);
      return Done(Placed(E[0] + E[1] * e1 + E[2] * n1, N[0] + N[1] * e1 + N[2] * n1));
    case 2 =>
      var e2, n2, en := e1 * e1, n1 * n1, e1 * n1;
      SecondOrder(e1, n1, E, 6);
      SecondOrder(e1, n1, N, 6);
      return Done(Placed(E[0] + E[1] * e1 + E[2] * n1 + E[3] * e2 + E[4] * en + E[5] * n2,
                         N[0] + N[1] * e1 + N[2] * n1 + N[3] * e2 + N[4] * en + N[5] * n2));
    case 3 =>
      var e2, en, n2 := e1 * e1, e1 * n1, n1 * n1;
      var e3, e2n, en2, n3 := e1 * e2, e2 * n1, e1 * n2, n1 * n2;
      ThirdOrder(e1, n1, E, 10);
      ThirdOrder(e1, n1, N, 10);
      return Done(Placed(E[0] + E[1] * e1 + E[2] * n1 + E[3] * e2 + E[4] * en + E[5] * n2
                         + E[6] * e3 + E[7] * e2n + E[8] * en2 + E[9] * n3,
                         N[0] + N[1] * e1 + N[2] * n1 + N[3] * e2 + N[4] * en + N[5] * n2
                         + N[6] * e3 + N[7] * e2n + N[8] * en2 + N[9] * n3));
    case _ => return Failed(ParameterError);
  }

  /** The polynomials with coefficients E and N, at a point. */
  function Georef(e1: real, n1: real, E: Vector, N: Vector, size: nat): Placed
    requires |E| == |N| == size
  {
    Placed(Dot(Terms(e1, n1, size), E, size), Dot(Terms(e1, n1, size), N, size))
  }

  // One term more.
  lemma NextTerm(e: real, n: real, c: Vector, k: nat, size: nat, term: real)
    requires k < size <= |c| && Term(k + 1, e, n) == term
    ensures Dot(Terms(e, n, size), c, k + 1) == Dot(Terms(e, n, size), c, k) + c[k] * term
  {
    assert Terms(e, n, size)[k] == term;
  }

  lemma FirstOrder(e: real, n: real, c: Vector, size: nat)
    requires 3 <= size <= |c|
    ensures Dot(Terms(e, n, size), c, 3) == c[0] + c[1] * e + c[2] * n
  {
    NextTerm(e, n, c, 0, size, 1.0);
    NextTerm(e, n, c, 1, size, e);
    NextTerm(e, n, c, 2, size, n);
  }

  lemma SecondOrder(e: real, n: real, c: Vector, size: nat)
    requires 6 <= size <= |c|
    ensures Dot(Terms(e, n, size), c, 6) == c[0] + c[1] * e + c[2] * n + c[3] * (e * e) + c[4] * (e * n) + c[5] * (n * n)
  {
    FirstOrder(e, n, c, size);
    NextTerm(e, n, c, 3, size, e * e);
    NextTerm(e, n, c, 4, size, e * n);
    NextTerm(e, n, c, 5, size, n * n);
  }

  lemma ThirdOrder(e: real, n: real, c: Vector, size: nat)
    requires 10 <= size <= |c|
    ensures Dot(Terms(e, n, size), c, 10)
         == c[0] + c[1] * e + c[2] * n + c[3] * (e * e) + c[4] * (e * n) + c[5] * (n * n)
            + c[6] * (e * (e * e)) + c[7] * (e * e * n) + c[8] * (e * (n * n)) + c[9] * (n * (n * n))
  {
    SecondOrder(e, n, c, size);
    NextTerm(e, n, c, 6, size, e * (e * e));
    NextTerm(e, n, c, 7, size, e * e * n);
    NextTerm(e, n, c, 8, size, e * (n * n));
    NextTerm(e, n, c, 9, size, n * (n * n));
  }

  // ----- control points

  datatype ControlPoint = ControlPoint(e1: real, n1: real, e2: real, n2: real)

  /** Coordinates in two systems, point by point; points with a positive status are active. */
  class ControlPoints {
    var count: nat
    var e1: array<real>
    var n1: array<real>
    var e2: array<real>
    var n2: array<real>
    var status: array<int>

    ghost predicate Valid()
      reads this
    {
      count <= e1.Length && count <= n1.Length && count <= e2.Length && count <= n2.Length && count <= status.Length
    }

    constructor (count: nat, e1: array<real>, n1: array<real>, e2: array<real>, n2: array<real>, status: array<int>)
      requires count <= e1.Length && count <= n1.Length && count <= e2.Length && count <= n2.Length && count <= status.Length
      ensures Valid() && this.count == count && this.status == status
      ensures this.e1 == e1 && this.n1 == n1 && this.e2 == e2 && this.n2 == n2
    {
      this.count, this.e1, this.n1, this.e2, this.n2, this.status := count, e1, n1, e2, n2, status;
    }

    // The active points among the first k.
    ghost function Active(k: nat): seq<ControlPoint>
      requires Valid() && k <= count
      reads this, e1, n1, e2, n2, status
    {
      ActiveAmong(k, e1, n1, e2, n2, status)
    }

    ghost function Points(): seq<ControlPoint>
      requires Valid()
      reads this, e1, n1, e2, n2, status
    {
      Active(count)
    }

    lemma {:induction false} ActiveGrow(k: nat, l: nat)
      requires Valid() && k <= l <= count
      ensures |Active(k)| <= |Active(l)|
    {
      if k < l { ActiveGrow(k, l - 1); }
    }
  }

  ghost function ActiveAmong(k: nat, e1: array<real>, n1: array<real>, e2: array<real>, n2: array<real>, status: array<int>): seq<ControlPoint>
    requires k <= e1.Length && k <= n1.Length && k <= e2.Length && k <= n2.Length && k <= status.Length
    reads e1, n1, e2, n2, status
  {
    if k == 0 then []
    else ActiveAmong(k - 1, e1, n1, e2, n2, status)
         + if status[k - 1] > 0 then [ControlPoint(e1[k - 1], n1[k - 1], e2[k - 1], n2[k - 1])] else []
  }

  // Exchanging the arrays exchanges the two systems of every point.
  lemma {:induction false} ActiveMirrored(k: nat, e1: array<real>, n1: array<real>, e2: array<real>, n2: array<real>, status: array<int>)
    requires k <= e1.Length && k <= n1.Length && k <= e2.Length && k <= n2.Length && k <= status.Length
    ensures ActiveAmong(k, e2, n2, e1, n1, status) == Mirrored(ActiveAmong(k, e1, n1, e2, n2, status))
  {
    if k > 0 { ActiveMirrored(k - 1, e1, n1, e2, n2, status); }
  }

  // The points with the two systems exchanged.
  function Mirrored(l: seq<ControlPoint>): (r: seq<ControlPoint>)
    ensures |r| == |l|
  {
    seq(|l|, k requires 0 <= k < |l| => ControlPoint(l[k].e2, l[k].n2, l[k].e1, l[k].n1))
  }

  // What is to be fitted: the terms of the first system, and the easting or northing of the second.
  function SampleOf(p: ControlPoint, north: bool, size: nat): Sample {
    Sample(Terms(p.e1, p.n1, size), if north then p.n2 else p.e2)
  }

  function Samples(l: seq<ControlPoint>, north: bool, size: nat): (s: seq<Sample>)
    ensures |s| == |l| && GoodSamples(s, size)
  {
    seq(|l|, k requires 0 <= k < |l| => SampleOf(l[k], north, size))
  }

  lemma SamplesGrow(l: seq<ControlPoint>, p: ControlPoint, north: bool, size: nat)
    ensures Samples(l + [p], north, size) == Samples(l, north, size) + [SampleOf(p, north, size)]
  {
  }

  // ----- as many points as coefficients

  ghost predicate Interpolates(l: seq<ControlPoint>, E: Vector, N: Vector, size: nat)
    requires |E| == |N| == size
  {
    forall k :: 0 <= k < |l| ==> Georef(l[k].e1, l[k].n1, E, N, size) == Placed(l[k].e2, l[k].n2)
  }

  // A polynomial, other than zero, that is zero at all points.
  ghost predicate OnOneCurve(l: seq<ControlPoint>, size: nat) {
    exists x: Vector :: |x| == size && x != Zeros(size) && CurveThrough(l, x, size)
  }

  ghost predicate CurveThrough(l: seq<ControlPoint>, x: Vector, size: nat)
    requires |x| == size
  {
    forall k :: 0 <= k < |l| ==> Dot(Terms(l[k].e1, l[k].n1, size), x, size) == 0.0
  }

  function DesignMatrix(l: seq<ControlPoint>, size: nat): (m: Matrix)
    ensures |m| == |l| && forall k :: 0 <= k < |m| ==> |m[k]| == size
  {
    seq(|l|, k requires 0 <= k < |l| => Terms(l[k].e1, l[k].n1, size))
  }

  function Values(l: seq<ControlPoint>, north: bool): (a: Vector)
    ensures |a| == |l|
  {
    seq(|l|, k requires 0 <= k < |l| => if north then l[k].n2 else l[k].e2)
  }

  /** Solving the design matrix interpolates; it is singular when the points lie on one curve. */
  lemma DesignInterpolates(l: seq<ControlPoint>, E: Vector, N: Vector, size: nat)
    requires |l| == size == |E| == |N|
    ensures Solves(DesignMatrix(l, size), Values(l, false), E, size) && Solves(DesignMatrix(l, size), Values(l, true), N, size)
       <==> Interpolates(l, E, N, size)
  {
    var m := DesignMatrix(l, size);
    forall k | 0 <= k < size
      ensures Georef(l[k].e1, l[k].n1, E, N, size) == Placed(Dot(m[k], E, size), Dot(m[k], N, size))
    {
    }
    if Interpolates(l, E, N, size) {
      forall k | 0 <= k < size ensures Dot(m[k], E, size) == Values(l, false)[k] && Dot(m[k], N, size) == Values(l, true)[k] {
        assert Georef(l[k].e1, l[k].n1, E, N, size) == Placed(l[k].e2, l[k].n2);
      }
    }
  }

  lemma DesignSingular(l: seq<ControlPoint>, size: nat)
    requires |l| == size
    ensures Singular(DesignMatrix(l, size), size) <==> OnOneCurve(l, size)
  {
    var m := DesignMatrix(l, size);
    forall x: Vector | |x| == size ensures Solves(m, Zeros(size), x, size) <==> CurveThrough(l, x, size) {
      forall k | 0 <= k < size ensures m[k] == Terms(l[k].e1, l[k].n1, size) && Zeros(size)[k] == 0.0 {
      }
      if Solves(m, Zeros(size), x, size) {
        forall k | 0 <= k < |l| ensures Dot(Terms(l[k].e1, l[k].n1, size), x, size) == 0.0 {
          assert Dot(m[k], x, size) == Zeros(size)[k];
        }
      }
    }
  }
}
