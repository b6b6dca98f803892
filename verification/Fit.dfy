/** Computing the coefficients of a georeferencing polynomial from control points. */
module Fit {
  import opened LinearSystems
  import opened SolveMat
  import opened LeastSquares
  import opened GeoRef

  // The buffers of a system do not belong to the control points.
  ghost predicate Apart(cp: ControlPoints, a: array<real>)
    reads cp
  {
    a != cp.e1 && a != cp.n1 && a != cp.e2 && a != cp.n2
  }

  ghost predicate Buffers(cp: ControlPoints, v: array2<real>, a: array<real>, b: array<real>, size: nat)
    reads cp
  {
    cp.Valid() && IsSystem(v, a, b, size) && Apart(cp, a) && Apart(cp, b)
  }

  // ----- exactly as many points as coefficients

  method PopulateRow(v: array2<real>, r: nat, e: real, n: real)
    requires r < v.Length0
    modifies v
    ensures forall j :: 0 <= j < v.Length1 ==> v[r, j] == Term(j + 1, e, n)
    ensures forall i, j :: 0 <= i < v.Length0 && 0 <= j < v.Length1 && i != r ==> v[i, j] == old(v[i, j])
  {
    for j := 0 to v.Length1
      invariant forall l :: 0 <= l < j ==> v[r, l] == Term(l + 1, e, n)
      invariant forall i, l :: 0 <= i < v.Length0 && 0 <= l < v.Length1 && i != r ==> v[i, l] == old(v[i, l])
    {
      v[r, j] := Term(j + 1, e, n);
    }
  }

  // The first rows hold the points of l.
  ghost predicate Populated(v: array2<real>, a: array<real>, b: array<real>, l: seq<ControlPoint>, size: nat)
    requires IsSystem(v, a, b, size) && |l| <= size
    reads v, a, b
  {
    && (forall r, j :: 0 <= r < |l| && 0 <= j < size ==> v[r, j] == Term(j + 1, l[r].e1, l[r].n1))
    && (forall r :: 0 <= r < |l| ==> a[r] == l[r].e2 && b[r] == l[r].n2)
  }

  lemma PopulatedIsDesign(v: array2<real>, a: array<real>, b: array<real>, l: seq<ControlPoint>, size: nat)
    requires IsSystem(v, a, b, size) && |l| == size && Populated(v, a, b, l, size)
    ensures Rows(v) == DesignMatrix(l, size) && a[..] == Values(l, false) && b[..] == Values(l, true)
  {
    forall r | 0 <= r < size ensures Rows(v)[r] == DesignMatrix(l, size)[r] {
    }
  }

  // One point more, if it is active.
  method PopulateNext(cp: ControlPoints, v: array2<real>, a: array<real>, b: array<real>, size: nat, pntnow: nat, currow: nat)
    returns (next: nat)
    requires Buffers(cp, v, a, b, size) && pntnow < cp.count && currow == |cp.Active(pntnow)| && |cp.Active(pntnow + 1)| <= size
    requires Populated(v, a, b, cp.Active(pntnow), size)
    modifies v, a, b
    ensures next == |cp.Active(pntnow + 1)| && Populated(v, a, b, cp.Active(pntnow + 1), size)
  {
    next := currow;
    if cp.status[pntnow] > 0 {
      PopulateRow(v, currow, cp.e1[pntnow], cp.n1[pntnow]);
      a[currow], b[currow] := cp.e2[pntnow], cp.n2[pntnow];
      next := currow + 1;
    }
  }

  method Populate(cp: ControlPoints, v: array2<real>, a: array<real>, b: array<real>, size: nat) returns (rows: nat)
    requires Buffers(cp, v, a, b, size) && |cp.Points()| <= size
    modifies v, a, b
    ensures rows == |cp.Points()| && Populated(v, a, b, cp.Points(), size)
  {
    rows := 0;
    for pntnow := 0 to cp.count
      invariant rows == |cp.Active(pntnow)| <= size && Populated(v, a, b, cp.Active(pntnow), size)
    {
      cp.ActiveGrow(pntnow + 1, cp.count);
      rows := PopulateNext(cp, v, a, b, size, pntnow, rows);
    }
  }

  // Solves the system of as many points as there are coefficients.
  method SolveDesign(v: array2<real>, a: array<real>, b: array<real>, size: nat, ghost l: seq<ControlPoint>)
    returns (status: Status, E: Vector, N: Vector)
    requires IsSystem(v, a, b, size) && |l| == size && Populated(v, a, b, l, size)
    modifies v, a, b
    ensures status == if OnOneCurve(l, size) then Unsolvable else Success
    ensures status == Success ==> |E| == |N| == size && Interpolates(l, E, N, size)
  {
    PopulatedIsDesign(v, a, b, l, size);
    DesignSingular(l, size);
    status, E, N := SolveMat.SolveMat(v, a, b, size);
    if status == Success { DesignInterpolates(l, E, N, size); }
  }

  /** With as many points as coefficients, the polynomials run through all points. */
  method ExactDet(cp: ControlPoints, v: array2<real>, a: array<real>, b: array<real>, size: nat)
    returns (status: Status, E: Vector, N: Vector)
    requires Buffers(cp, v, a, b, size) && |cp.Points()| <= size
    modifies v, a, b
    ensures status == if |cp.Points()| < size then InternalError else if OnOneCurve(cp.Points(), size) then Unsolvable else Success
    ensures status == Success ==> |E| == |N| == size && Interpolates(cp.Points(), E, N, size)
  {
    ghost var l := cp.Points();
    var rows := Populate(cp, v, a, b, size);
    if rows != size { return InternalError, [], []; }
    status, E, N := SolveDesign(v, a, b, size, l);
  }

  // ----- more points than coefficients

  // The upper half of the matrix and both columns hold the sums over the points of l.
  ghost predicate Summed(v: array2<real>, a: array<real>, b: array<real>, l: seq<ControlPoint>, size: nat)
    requires IsSystem(v, a, b, size)
    reads v, a, b
  {
    && (forall i, j :: 0 <= i <= j < size ==> v[i, j] == Product(Samples(l, false, size), i, j, size))
    && (forall i :: 0 <= i < size ==> a[i] == Weight(Samples(l, false, size), i, size) && b[i] == Weight(Samples(l, true, size), i, size))
  }

  method Initialize(v: array2<real>, a: array<real>, b: array<real>, size: nat)
    requires IsSystem(v, a, b, size)
    modifies v, a, b
    ensures Summed(v, a, b, [], size)
  {
    for i := 0 to size
      invariant forall r, c :: 0 <= r < i && r <= c < size ==> v[r, c] == 0.0
      invariant forall r :: 0 <= r < i ==> a[r] == b[r] == 0.0
    {
      for j := i to size
        invariant forall r, c :: 0 <= r < i && r <= c < size ==> v[r, c] == 0.0
        invariant forall c :: i <= c < j ==> v[i, c] == 0.0
        invariant forall r :: 0 <= r < i ==> a[r] == b[r] == 0.0
      {
        v[i, j] := 0.0;
      }
      a[i], b[i] := 0.0, 0.0;
    }
  }

  // Row i of the upper half, with the products of one point added.
  method AddRow(v: array2<real>, i: nat, t: Vector)
    requires i < v.Length0 == v.Length1 == |t|
    modifies v
    ensures forall j :: i <= j < v.Length1 ==> v[i, j] == old(v[i, j]) + Times(t[i], t[j])
    ensures forall r, j :: 0 <= r < v.Length0 && 0 <= j < v.Length1 && r != i ==> v[r, j] == old(v[r, j])
  {
    for j := i to v.Length1
      invariant forall c :: i <= c < j ==> v[i, c] == old(v[i, c]) + Times(t[i], t[c])
      invariant forall c :: j <= c < v.Length1 ==> v[i, c] == old(v[i, c])
      invariant forall r, c :: 0 <= r < v.Length0 && 0 <= c < v.Length1 && r != i ==> v[r, c] == old(v[r, c])
    {
      v[i, j] := v[i, j] + Times(t[i], t[j]);
    }
  }

  // The sums with one point added.
  method AddPoint(v: array2<real>, a: array<real>, b: array<real>, e2: real, n2: real, t: Vector, size: nat)
    requires IsSystem(v, a, b, size) && |t| == size
    modifies v, a, b
    ensures forall i, j :: 0 <= i <= j < size ==> v[i, j] == old(v[i, j]) + Times(t[i], t[j])
    ensures forall i :: 0 <= i < size ==> a[i] == old(a[i]) + Times(e2, t[i]) && b[i] == old(b[i]) + Times(n2, t[i])
  {
    for i := 0 to size
      invariant forall r, j :: 0 <= r < i && r <= j < size ==> v[r, j] == old(v[r, j]) + Times(t[r], t[j])
      invariant forall r, j :: i <= r < size && 0 <= j < size ==> v[r, j] == old(v[r, j])
      invariant forall r :: 0 <= r < i ==> a[r] == old(a[r]) + Times(e2, t[r]) && b[r] == old(b[r]) + Times(n2, t[r])
      invariant forall r :: i <= r < size ==> a[r] == old(a[r]) && b[r] == old(b[r])
    {
      AddRow(v, i, t);
      a[i], b[i] := a[i] + Times(e2, t[i]), b[i] + Times(n2, t[i]);
    }
  }

  lemma SumsGrow(l: seq<ControlPoint>, p: ControlPoint, size: nat)
    ensures var t := Terms(p.e1, p.n1, size);
      && (forall i, j :: 0 <= i < size && 0 <= j < size ==>
            Product(Samples(l + [p], false, size), i, j, size) == Product(Samples(l, false, size), i, j, size) + Times(t[i], t[j]))
      && (forall i :: 0 <= i < size ==>
            && Weight(Samples(l + [p], false, size), i, size) == Weight(Samples(l, false, size), i, size) + Times(p.e2, t[i])
            && Weight(Samples(l + [p], true, size), i, size) == Weight(Samples(l, true, size), i, size) + Times(p.n2, t[i]))
  {
    SamplesGrow(l, p, false, size);
    SamplesGrow(l, p, true, size);
    var s, s' := Samples(l, false, size), Samples(l + [p], false, size);
    var u, u' := Samples(l, true, size), Samples(l + [p], true, size);
    assert s'[..|s|] == s && u'[..|u|] == u;
  }

  method SumNext(cp: ControlPoints, v: array2<real>, a: array<real>, b: array<real>, size: nat, n: nat, numactive: nat) returns (next: nat)
    requires Buffers(cp, v, a, b, size) && n < cp.count && numactive == |cp.Active(n)| && Summed(v, a, b, cp.Active(n), size)
    modifies v, a, b
    ensures next == |cp.Active(n + 1)| && Summed(v, a, b, cp.Active(n + 1), size)
  {
    next := numactive;
    if cp.status[n] > 0 {
      next := numactive + 1;
      ghost var l, p := cp.Active(n), ControlPoint(cp.e1[n], cp.n1[n], cp.e2[n], cp.n2[n]);
      SumsGrow(l, p, size);
      AddPoint(v, a, b, cp.e2[n], cp.n2[n], Terms(cp.e1[n], cp.n1[n], size), size);
      assert cp.Active(n + 1) == l + [p];
    } else {
      assert cp.Active(n + 1) == cp.Active(n);
    }
  }

  method SumUp(cp: ControlPoints, v: array2<real>, a: array<real>, b: array<real>, size: nat) returns (numactive: nat)
    requires Buffers(cp, v, a, b, size)
    modifies v, a, b
    ensures numactive == |cp.Points()| && Summed(v, a, b, cp.Points(), size)
  {
    Initialize(v, a, b, size);
    numactive := 0;
    for n := 0 to cp.count
      invariant numactive == |cp.Active(n)| && Summed(v, a, b, cp.Active(n), size)
    {
      numactive := SumNext(cp, v, a, b, size, n, numactive);
    }
  }

  // The lower half becomes the mirror image of the upper half.
  method Transpose(v: array2<real>)
    requires v.Length0 == v.Length1
    modifies v
    ensures forall i, j :: 0 <= i < v.Length0 && 0 <= j < v.Length0 ==> v[i, j] == if i <= j then old(v[i, j]) else old(v[j, i])
  {
    for i := 0 to v.Length0
      invariant forall r, c :: 0 <= r < i && 0 <= c < r ==> v[r, c] == old(v[c, r])
      invariant forall r, c :: 0 <= r <= c < v.Length0 ==> v[r, c] == old(v[r, c])
    {
      for j := 0 to i
        invariant forall r, c :: 0 <= r < i && 0 <= c < r ==> v[r, c] == old(v[c, r])
        invariant forall c :: 0 <= c < j ==> v[i, c] == old(v[c, i])
        invariant forall r, c :: 0 <= r <= c < v.Length0 ==> v[r, c] == old(v[r, c])
      {
        v[i, j] := v[j, i];
      }
    }
  }

  lemma TransposedIsNormal(v: array2<real>, s: seq<Sample>, size: nat)
    requires v.Length0 == v.Length1 == size && GoodSamples(s, size)
    requires forall i, j :: 0 <= i < size && 0 <= j < size ==> v[i, j] == if i <= j then Product(s, i, j, size) else Product(s, j, i, size)
    ensures Rows(v) == NormalMatrix(s, size)
  {
    forall i | 0 <= i < size ensures Rows(v)[i] == NormalRow(s, i, size) {
      forall j | 0 <= j < size ensures Rows(v)[i][j] == Product(s, i, j, size) { ProductSymmetric(s, i, j, size); }
    }
  }

  /** No other coefficients have a smaller sum of squared residuals over the points. */
  ghost predicate BestFit(l: seq<ControlPoint>, c: Vector, north: bool, size: nat)
    requires |c| == size
  {
    forall d: Vector :: |d| == size ==> Residuals(Samples(l, north, size), c, size) <= Residuals(Samples(l, north, size), d, size)
  }

  /** The squared distances, summed up, between where polynomials take the points and where the points
      belong. */
  function Errors(l: seq<ControlPoint>, E: Vector, N: Vector, size: nat): real
    requires |E| == |N| == size
  {
    if l == [] then 0.0
    else
      var p := l[|l| - 1];
      var r := Georef(p.e1, p.n1, E, N, size);
      Errors(l[..|l| - 1], E, N, size) + Square(p.e2 - r.e) + Square(p.n2 - r.n)
  }

  /** No other polynomials of that order take the points nearer to where they belong. */
  ghost predicate LeastErrors(l: seq<ControlPoint>, E: Vector, N: Vector, size: nat)
    requires |E| == |N| == size
  {
    forall D: Vector, M: Vector :: |D| == |M| == size ==> Errors(l, E, N, size) <= Errors(l, D, M, size)
  }

  lemma {:induction false} ErrorsAreResiduals(l: seq<ControlPoint>, E: Vector, N: Vector, size: nat)
    requires |E| == |N| == size
    ensures Errors(l, E, N, size) == Residuals(Samples(l, false, size), E, size) + Residuals(Samples(l, true, size), N, size)
  {
    if l != [] {
      var l', p := l[..|l| - 1], l[|l| - 1];
      ErrorsAreResiduals(l', E, N, size);
      assert l == l' + [p];
      OneResidualMore(l', p, false, E, size);
      OneResidualMore(l', p, true, N, size);
    }
  }

  lemma OneResidualMore(l: seq<ControlPoint>, p: ControlPoint, north: bool, x: Vector, size: nat)
    requires |x| == size
    ensures Residuals(Samples(l + [p], north, size), x, size)
         == Residuals(Samples(l, north, size), x, size)
            + Square((if north then p.n2 else p.e2) - Dot(Terms(p.e1, p.n1, size), x, size))
  {
    var s := Samples(l + [p], north, size);
    SamplesGrow(l, p, north, size);
    assert s[..|l|] == Samples(l, north, size);
  }

  lemma BestFitsHaveLeastErrors(l: seq<ControlPoint>, E: Vector, N: Vector, size: nat)
    requires |E| == |N| == size && BestFit(l, E, false, size) && BestFit(l, N, true, size)
    ensures LeastErrors(l, E, N, size)
  {
    forall D: Vector, M: Vector | |D| == |M| == size ensures Errors(l, E, N, size) <= Errors(l, D, M, size) {
      ErrorsAreResiduals(l, E, N, size);
      ErrorsAreResiduals(l, D, M, size);
    }
  }

  lemma SolutionIsBestFit(l: seq<ControlPoint>, c: Vector, north: bool, size: nat)
    requires |c| == size && Solves(NormalMatrix(Samples(l, north, size), size), NormalSide(Samples(l, north, size), size), c, size)
    ensures BestFit(l, c, north, size)
  {
    forall d: Vector | |d| == size
      ensures Residuals(Samples(l, north, size), c, size) <= Residuals(Samples(l, north, size), d, size)
    {
      NormalSolutionIsBest(Samples(l, north, size), c, d, size);
    }
  }

  lemma {:induction false} SameProducts(l: seq<ControlPoint>, i: nat, j: nat, size: nat)
    requires i < size && j < size
    ensures Product(Samples(l, true, size), i, j, size) == Product(Samples(l, false, size), i, j, size)
  {
    if l != [] {
      var l', p := l[..|l| - 1], l[|l| - 1];
      SameProducts(l', i, j, size);
      assert l == l' + [p];
      SamplesGrow(l', p, false, size);
      SamplesGrow(l', p, true, size);
      assert Samples(l, false, size)[..|l'|] == Samples(l', false, size);
      assert Samples(l, true, size)[..|l'|] == Samples(l', true, size);
    }
  }

  // Eastings and northings have the same normal matrix.
  lemma SameNormalMatrix(l: seq<ControlPoint>, size: nat)
    ensures NormalMatrix(Samples(l, true, size), size) == NormalMatrix(Samples(l, false, size), size)
  {
    forall i | 0 <= i < size ensures NormalRow(Samples(l, true, size), i, size) == NormalRow(Samples(l, false, size), i, size) {
      forall j | 0 <= j < size
        ensures Product(Samples(l, true, size), i, j, size) == Product(Samples(l, false, size), i, j, size)
      {
        SameProducts(l, i, j, size);
      }
    }
  }

  lemma DegenerateOnOneCurve(l: seq<ControlPoint>, size: nat)
    ensures Degenerate(Samples(l, false, size), size) <==> OnOneCurve(l, size)
  {
    var s := Samples(l, false, size);
    forall x: Vector | |x| == size ensures Vanishes(s, x, size) <==> CurveThrough(l, x, size) {
      if Vanishes(s, x, size) {
        forall k | 0 <= k < |l| ensures Dot(Terms(l[k].e1, l[k].n1, size), x, size) == 0.0 {
          assert Form(s[k], x, size) == 0.0;
        }
      }
    }
  }

  /** With more points than coefficients, the coefficients minimise the sum of squared residuals.
      This fails exactly when all points lie on one curve of that order. */
  method CalcLS(cp: ControlPoints, v: array2<real>, a: array<real>, b: array<real>, size: nat)
    returns (status: Status, E: Vector, N: Vector)
    requires Buffers(cp, v, a, b, size)
    modifies v, a, b
    ensures status == if |cp.Points()| <= size then InternalError else if OnOneCurve(cp.Points(), size) then Unsolvable else Success
    ensures status == Success ==>
              |E| == |N| == size && BestFit(cp.Points(), E, false, size) && BestFit(cp.Points(), N, true, size)
              && LeastErrors(cp.Points(), E, N, size)
  {
    ghost var l := cp.Points();
    var numactive := SumUp(cp, v, a, b, size);
    if numactive <= size { return InternalError, [], []; }
    Transpose(v);
    status, E, N := SolveNormal(v, a, b, size, l);
  }

  method SolveNormal(v: array2<real>, a: array<real>, b: array<real>, size: nat, ghost l: seq<ControlPoint>)
    returns (status: Status, E: Vector, N: Vector)
    requires IsSystem(v, a, b, size)
    requires forall i, j :: 0 <= i < size && 0 <= j < size ==>
               v[i, j] == var s := Samples(l, false, size); if i <= j then Product(s, i, j, size) else Product(s, j, i, size)
    requires forall i :: 0 <= i < size ==> a[i] == Weight(Samples(l, false, size), i, size) && b[i] == Weight(Samples(l, true, size), i, size)
    modifies v, a, b
    ensures status == if OnOneCurve(l, size) then Unsolvable else Success
    ensures status == Success ==> |E| == |N| == size && BestFit(l, E, false, size) && BestFit(l, N, true, size)
    ensures status == Success ==> LeastErrors(l, E, N, size)
  {
    TransposedIsNormal(v, Samples(l, false, size), size);
    assert a[..] == NormalSide(Samples(l, false, size), size) && b[..] == NormalSide(Samples(l, true, size), size);
    SingularIffDegenerate(Samples(l, false, size), size);
    DegenerateOnOneCurve(l, size);
    SameNormalMatrix(l, size);
    status, E, N := SolveMat.SolveMat(v, a, b, size);
    if status == Success {
      SolutionIsBestFit(l, E, false, size);
      SolutionIsBestFit(l, N, true, size);
      BestFitsHaveLeastErrors(l, E, N, size);
    }
  }

  // ----- both directions

  /** What fitting achieves: with as many active points as coefficients the polynomials run through
      all of them, with more of them no other polynomials come closer. */
  ghost predicate Fitted(l: seq<ControlPoint>, E: Vector, N: Vector, size: nat) {
    && |E| == |N| == size <= |l|
    && if |l| == size then Interpolates(l, E, N, size)
       else BestFit(l, E, false, size) && BestFit(l, N, true, size) && LeastErrors(l, E, N, size)
  }

  function FitStatus(few: bool, curve: bool): Status {
    if few then NotEnoughPoints else if curve then Unsolvable else Success
  }

  method CountActive(cp: ControlPoints) returns (numactive: nat)
    requires cp.Valid()
    ensures numactive == |cp.Points()|
  {
    numactive := 0;
    for i := 0 to cp.count
      invariant numactive == |cp.Active(i)|
    {
      if cp.status[i] > 0 { numactive := numactive + 1; }
    }
  }

  /** Fits polynomials of an order to the active control points; it fails when there are not enough
      of them, and exactly when they lie on one curve of that order. */
  method CalcCoef(cp: ControlPoints, order: nat) returns (status: Status, E: Vector, N: Vector)
    requires cp.Valid()
    ensures status == FitStatus(|cp.Points()| < NumTerms(order), OnOneCurve(cp.Points(), NumTerms(order)))
    ensures status == Success ==> Fitted(cp.Points(), E, N, NumTerms(order))
  {
    var numactive := CountActive(cp);
    var size := NumTerms(order);
    if numactive < size { return NotEnoughPoints, [], []; }
    var v, a, b := new real[size, size], new real[size], new real[size];
    if numactive == size {
      status, E, N := ExactDet(cp, v, a, b, size);
    } else {
      status, E, N := CalcLS(cp, v, a, b, size);
    }
  }

  /** Fits both directions, the second one with the two systems exchanged for the time being. */
  method ComputeGeorefEquations(cp: ControlPoints, order: int)
    returns (status: Status, E12: Vector, N12: Vector, E21: Vector, N21: Vector)
    requires cp.Valid()
    modifies cp
    ensures cp.Valid() && cp.Points() == old(cp.Points()) && cp.count == old(cp.count) && cp.status == old(cp.status)
    ensures cp.e1 == old(cp.e1) && cp.n1 == old(cp.n1) && cp.e2 == old(cp.e2) && cp.n2 == old(cp.n2)
    ensures status == if !(1 <= order <= MAX_ORDER) then ParameterError
                      else var l, size := old(cp.Points()), NumTerms(order);
                        if |l| < size then NotEnoughPoints
                        else if OnOneCurve(l, size) || OnOneCurve(Mirrored(l), size) then Unsolvable else Success
    ensures status == Success ==>
              Fitted(cp.Points(), E12, N12, NumTerms(order)) && Fitted(Mirrored(cp.Points()), E21, N21, NumTerms(order))
  {
    E12, N12, E21, N21 := [], [], [], [];
    if order < 1 || order > MAX_ORDER { return ParameterError, E12, N12, E21, N21; }
    status, E12, N12 := CalcCoef(cp, order);
    if status != Success { return; }
    status, E21, N21 := Backward(cp, order);
  }

  // Fits the other direction.
  method Backward(cp: ControlPoints, order: nat) returns (status: Status, E: Vector, N: Vector)
    requires cp.Valid()
    modifies cp
    ensures cp.Valid() && cp.Points() == old(cp.Points()) && cp.count == old(cp.count) && cp.status == old(cp.status)
    ensures cp.e1 == old(cp.e1) && cp.n1 == old(cp.n1) && cp.e2 == old(cp.e2) && cp.n2 == old(cp.n2)
    ensures var m := Mirrored(old(cp.Points())); status == FitStatus(|m| < NumTerms(order), OnOneCurve(m, NumTerms(order)))
    ensures status == Success ==> Fitted(Mirrored(old(cp.Points())), E, N, NumTerms(order))
  {
    ActiveMirrored(cp.count, cp.e1, cp.n1, cp.e2, cp.n2, cp.status);
    SwitchSystems(cp);
    status, E, N := CalcCoef(cp, order);
    SwitchSystems(cp);
  }

  method SwitchSystems(cp: ControlPoints)
    requires cp.Valid()
    modifies cp
    ensures cp.Valid() && cp.count == old(cp.count) && cp.status == old(cp.status)
    ensures cp.e1 == old(cp.e2) && cp.e2 == old(cp.e1) && cp.n1 == old(cp.n2) && cp.n2 == old(cp.n1)
  {
    cp.e1, cp.e2 := cp.e2, cp.e1;
    cp.n1, cp.n2 := cp.n2, cp.n1;
  }
}
