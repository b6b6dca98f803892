/** Why solving the normal equations minimises the sum of squared residuals. */
module LeastSquares {
  import opened LinearSystems

  /** A row of an over-determined system: the terms of a point, and the value wanted there. */
  datatype Sample = Sample(terms: Vector, value: real)

  ghost predicate GoodSamples(s: seq<Sample>, n: nat) { forall p :: 0 <= p < |s| ==> |s[p].terms| == n }

  function Times(a: real, b: real): real { a * b }

  // ----- the normal equations

  /** The sum over all samples of term i times term k. */
  function Product(s: seq<Sample>, i: nat, k: nat, n: nat): real
    requires GoodSamples(s, n) && i < n && k < n
  {
    if s == [] then 0.0
    else
      var p := s[|s| - 1];
      Product(s[..|s| - 1], i, k, n) + Times(p.terms[i], p.terms[k])
  }

  /** The sum over all samples of the value times term i. */
  function Weight(s: seq<Sample>, i: nat, n: nat): real
    requires GoodSamples(s, n) && i < n
  {
    if s == [] then 0.0
    else
      var p := s[|s| - 1];
      Weight(s[..|s| - 1], i, n) + Times(p.value, p.terms[i])
  }

  function NormalRow(s: seq<Sample>, i: nat, n: nat): (r: Vector)
    requires GoodSamples(s, n) && i < n
    ensures |r| == n
  {
    seq(n, k requires 0 <= k < n => Product(s, i, k, n))
  }

  function NormalMatrix(s: seq<Sample>, n: nat): (m: Matrix)
    requires GoodSamples(s, n)
    ensures IsSquare(m, n)
  {
    seq(n, i requires 0 <= i < n => NormalRow(s, i, n))
  }

  function NormalSide(s: seq<Sample>, n: nat): (a: Vector)
    requires GoodSamples(s, n)
    ensures |a| == n
  {
    seq(n, i requires 0 <= i < n => Weight(s, i, n))
  }

  lemma {:induction false} ProductSymmetric(s: seq<Sample>, i: nat, k: nat, n: nat)
    requires GoodSamples(s, n) && i < n && k < n
    ensures Product(s, i, k, n) == Product(s, k, i, n)
  {
    if s != [] { ProductSymmetric(s[..|s| - 1], i, k, n); }
  }

  // ----- sums of products of two linear forms

  // The value of the form with coefficients x at a sample.
  function Form(p: Sample, x: Vector, n: nat): real
    requires |p.terms| == |x| == n
  {
    Dot(p.terms, x, n)
  }

  // The sum over all samples of the products of two forms.
  function FormProducts(s: seq<Sample>, x: Vector, d: Vector, n: nat): real
    requires GoodSamples(s, n) && |x| == |d| == n
  {
    if s == [] then 0.0
    else
      var p := s[|s| - 1];
      FormProducts(s[..|s| - 1], x, d, n) + Times(Form(p, x, n), Form(p, d, n))
  }

  // The sum over all samples of the value times a form.
  function ValueProducts(s: seq<Sample>, d: Vector, n: nat): real
    requires GoodSamples(s, n) && |d| == n
  {
    if s == [] then 0.0
    else
      var p := s[|s| - 1];
      ValueProducts(s[..|s| - 1], d, n) + Times(p.value, Form(p, d, n))
  }

  // Adding a multiple of a vector to the first factor.
  lemma {:induction false} DotPlus(u: Vector, v: Vector, f: real, w: Vector, x: Vector, n: nat)
    requires n <= |u| && n <= |v| && n <= |w| && n <= |x|
    requires forall l :: 0 <= l < n ==> w[l] == u[l] + Times(f, v[l])
    ensures Dot(w, x, n) == Dot(u, x, n) + Times(f, Dot(v, x, n))
  {
    if n > 0 {
      DotPlus(u, v, f, w, x, n - 1);
      var d := Dot(v, x, n - 1);
      assert (u[n - 1] + f * v[n - 1]) * x[n - 1] == u[n - 1] * x[n - 1] + f * (v[n - 1] * x[n - 1]);
      assert f * (d + v[n - 1] * x[n - 1]) == f * d + f * (v[n - 1] * x[n - 1]);
    }
  }

  lemma {:induction false} DotZero(u: Vector, x: Vector, n: nat)
    requires n <= |u| && n <= |x| && forall l :: 0 <= l < n ==> u[l] == 0.0
    ensures Dot(u, x, n) == 0.0
  {
    if n > 0 { DotZero(u, x, n - 1); }
  }

  lemma {:induction false} DotCommutes(u: Vector, x: Vector, n: nat)
    requires n <= |u| && n <= |x|
    ensures Dot(u, x, n) == Dot(x, u, n)
  {
    if n > 0 { DotCommutes(u, x, n - 1); }
  }

  // The normal matrix applied to x, entry by entry.
  function Applied(s: seq<Sample>, x: Vector, n: nat): (y: Vector)
    requires GoodSamples(s, n) && |x| == n
    ensures |y| == n
  {
    seq(n, i requires 0 <= i < n => Dot(NormalRow(s, i, n), x, n))
  }

  lemma AppliedGrows(s: seq<Sample>, x: Vector, i: nat, n: nat)
    requires s != [] && GoodSamples(s, n) && |x| == n && i < n
    ensures var p := s[|s| - 1];
            Applied(s, x, n)[i] == Applied(s[..|s| - 1], x, n)[i] + Times(Form(p, x, n), p.terms[i])
  {
    var p, s' := s[|s| - 1], s[..|s| - 1];
    DotPlus(NormalRow(s', i, n), p.terms, p.terms[i], NormalRow(s, i, n), x, n);
  }

  /** Summing the products of two forms over all samples is what the normal matrix does. */
  lemma {:induction false} FormsByMatrix(s: seq<Sample>, x: Vector, d: Vector, n: nat)
    requires GoodSamples(s, n) && |x| == |d| == n
    ensures FormProducts(s, x, d, n) == Dot(Applied(s, x, n), d, n)
  {
    if s == [] {
      forall i | 0 <= i < n ensures Applied(s, x, n)[i] == 0.0 { DotZero(NormalRow(s, i, n), x, n); }
      DotZero(Applied(s, x, n), d, n);
    } else {
      var p, s' := s[|s| - 1], s[..|s| - 1];
      FormsByMatrix(s', x, d, n);
      forall i | 0 <= i < n
        ensures Applied(s, x, n)[i] == Applied(s', x, n)[i] + Times(Form(p, x, n), p.terms[i])
      {
        AppliedGrows(s, x, i, n);
      }
      DotPlus(Applied(s', x, n), p.terms, Form(p, x, n), Applied(s, x, n), d, n);
    }
  }

  lemma {:induction false} ValuesBySide(s: seq<Sample>, d: Vector, n: nat)
    requires GoodSamples(s, n) && |d| == n
    ensures ValueProducts(s, d, n) == Dot(NormalSide(s, n), d, n)
  {
    if s == [] {
      DotZero(NormalSide(s, n), d, n);
    } else {
      var p, s' := s[|s| - 1], s[..|s| - 1];
      ValuesBySide(s', d, n);
      DotPlus(NormalSide(s', n), p.terms, p.value, NormalSide(s, n), d, n);
    }
  }

  // ----- residuals

  function Square(a: real): real { a * a }

  /** The sum of the squared differences between the values and the form. */
  function Residuals(s: seq<Sample>, x: Vector, n: nat): real
    requires GoodSamples(s, n) && |x| == n
  {
    if s == [] then 0.0
    else
      var p := s[|s| - 1];
      Residuals(s[..|s| - 1], x, n) + Square(p.value - Form(p, x, n))
  }

  function Plus(x: Vector, d: Vector): (y: Vector)
    requires |x| == |d|
    ensures |y| == |x|
  {
    seq(|x|, l requires 0 <= l < |x| => x[l] + d[l])
  }

  lemma FormOfSum(p: Sample, x: Vector, d: Vector, n: nat)
    requires |p.terms| == |x| == |d| == n
    ensures Form(p, Plus(x, d), n) == Form(p, x, n) + Form(p, d, n)
  {
    DotCommutes(p.terms, Plus(x, d), n);
    DotCommutes(p.terms, x, n);
    DotCommutes(p.terms, d, n);
    DotPlus(x, d, 1.0, Plus(x, d), p.terms, n);
  }

  lemma SquareOfDifference(v: real, x: real, d: real)
    ensures Square(v - (x + d)) == Square(v - x) - 2.0 * (Times(v, d) - Times(x, d)) + Times(d, d)
  {
  }

  // Moving from x by d changes the residuals by a linear and a quadratic part.
  lemma {:induction false} ResidualsMoved(s: seq<Sample>, x: Vector, d: Vector, n: nat)
    requires GoodSamples(s, n) && |x| == |d| == n
    ensures Residuals(s, Plus(x, d), n)
         == Residuals(s, x, n) - 2.0 * (ValueProducts(s, d, n) - FormProducts(s, x, d, n)) + FormProducts(s, d, d, n)
  {
    if s != [] {
      var p := s[|s| - 1];
      ResidualsMoved(s[..|s| - 1], x, d, n);
      FormOfSum(p, x, d, n);
      SquareOfDifference(p.value, Form(p, x, n), Form(p, d, n));
    }
  }

  lemma TimesPositive(x: real, y: real)
    requires x > 0.0 && y > 0.0
    ensures Times(x, y) > 0.0
  {
  }

  lemma TimesTurned(x: real)
    ensures Times(x, x) == Times(-x, -x)
  {
  }

  lemma SquarePositive(f: real)
    ensures Times(f, f) >= 0.0 && (Times(f, f) == 0.0 ==> f == 0.0)
  {
    if f > 0.0 {
      TimesPositive(f, f);
    } else if f < 0.0 {
      TimesTurned(f);
      TimesPositive(-f, -f);
    }
  }

  lemma {:induction false} FormSquares(s: seq<Sample>, d: Vector, n: nat)
    requires GoodSamples(s, n) && |d| == n
    ensures FormProducts(s, d, d, n) >= 0.0
    ensures FormProducts(s, d, d, n) == 0.0 ==> forall p :: 0 <= p < |s| ==> Form(s[p], d, n) == 0.0
  {
    if s != [] {
      FormSquares(s[..|s| - 1], d, n);
      var f := Form(s[|s| - 1], d, n);
      SquarePositive(f);
    }
  }

  lemma SolvesMeansApplied(s: seq<Sample>, a: Vector, x: Vector, n: nat)
    requires GoodSamples(s, n) && |a| == |x| == n
    ensures Solves(NormalMatrix(s, n), a, x, n) <==> Applied(s, x, n) == a
  {
    if Solves(NormalMatrix(s, n), a, x, n) {
      forall i | 0 <= i < n ensures Applied(s, x, n)[i] == a[i] {
        assert NormalMatrix(s, n)[i] == NormalRow(s, i, n);
      }
    }
  }

  function Difference(x: Vector, y: Vector): (d: Vector)
    requires |x| == |y|
    ensures |d| == |x|
  {
    seq(|x|, l requires 0 <= l < |x| => y[l] - x[l])
  }

  /** A solution of the normal equations has the least sum of squared residuals of all coefficients. */
  lemma NormalSolutionIsBest(s: seq<Sample>, x: Vector, y: Vector, n: nat)
    requires GoodSamples(s, n) && |x| == |y| == n && Solves(NormalMatrix(s, n), NormalSide(s, n), x, n)
    ensures Residuals(s, x, n) <= Residuals(s, y, n)
  {
    var d := Difference(x, y);
    assert Plus(x, d) == y;
    ResidualsMoved(s, x, d, n);
    SolvesMeansApplied(s, NormalSide(s, n), x, n);
    FormsByMatrix(s, x, d, n);
    ValuesBySide(s, d, n);
    FormSquares(s, d, n);
  }

  /** All samples lie on a curve given by coefficients other than zero. */
  ghost predicate Degenerate(s: seq<Sample>, n: nat)
    requires GoodSamples(s, n)
  {
    exists x: Vector :: |x| == n && x != Zeros(n) && Vanishes(s, x, n)
  }

  ghost predicate Vanishes(s: seq<Sample>, x: Vector, n: nat)
    requires GoodSamples(s, n) && |x| == n
  {
    forall p :: 0 <= p < |s| ==> Form(s[p], x, n) == 0.0
  }

  lemma {:induction false} VanishingProducts(s: seq<Sample>, x: Vector, i: nat, n: nat)
    requires GoodSamples(s, n) && |x| == n && i < n && Vanishes(s, x, n)
    ensures Applied(s, x, n)[i] == 0.0
  {
    if s == [] {
      DotZero(NormalRow(s, i, n), x, n);
    } else {
      VanishingProducts(s[..|s| - 1], x, i, n);
      AppliedGrows(s, x, i, n);
    }
  }

  lemma VanishesIffKernel(s: seq<Sample>, x: Vector, n: nat)
    requires GoodSamples(s, n) && |x| == n
    ensures Vanishes(s, x, n) <==> Solves(NormalMatrix(s, n), Zeros(n), x, n)
  {
    SolvesMeansApplied(s, Zeros(n), x, n);
    if Vanishes(s, x, n) {
      forall i | 0 <= i < n ensures Applied(s, x, n)[i] == 0.0 { VanishingProducts(s, x, i, n); }
      assert Applied(s, x, n) == Zeros(n);
    } else if Applied(s, x, n) == Zeros(n) {
      FormsByMatrix(s, x, x, n);
      DotZero(Zeros(n), x, n);
      FormSquares(s, x, n);
      assert false;
    }
  }

  /** The normal equations are singular exactly when all samples lie on one curve. */
  lemma SingularIffDegenerate(s: seq<Sample>, n: nat)
    requires GoodSamples(s, n)
    ensures Singular(NormalMatrix(s, n), n) <==> Degenerate(s, n)
  {
    forall x: Vector | |x| == n ensures Vanishes(s, x, n) <==> Solves(NormalMatrix(s, n), Zeros(n), x, n) {
      VanishesIffKernel(s, x, n);
    }
    if Degenerate(s, n) {
      var x: Vector :| |x| == n && x != Zeros(n) && Vanishes(s, x, n);
      VanishesIffKernel(s, x, n);
    }
    if Singular(NormalMatrix(s, n), n) {
      var x: Vector :| |x| == n && x != Zeros(n) && Solves(NormalMatrix(s, n), Zeros(n), x, n);
      VanishesIffKernel(s, x, n);
    }
  }
}
