/** Square systems of linear equations over the reals, and the row operations that keep them. */
module LinearSystems {

  type Vector = seq<real>
  type Matrix = seq<seq<real>>

  // The sum of the products of the first n entries.
  function Dot(u: Vector, x: Vector, n: nat): real
    requires n <= |u| && n <= |x|
  {
    if n == 0 then 0.0 else Dot(u, x, n - 1) + u[n - 1] * x[n - 1]
  }

  predicate IsSquare(m: Matrix, n: nat) { |m| == n && forall i :: 0 <= i < n ==> |m[i]| == n }

  ghost predicate Solves(m: Matrix, a: Vector, x: Vector, n: nat)
    requires IsSquare(m, n) && |a| == n && |x| == n
  {
    forall i :: 0 <= i < n ==> Dot(m[i], x, n) == a[i]
  }

  function Zeros(n: nat): Vector { seq(n, _ => 0.0) }

  /** The matrix sends some vector other than zero to zero. */
  ghost predicate Singular(m: Matrix, n: nat)
    requires IsSquare(m, n)
  {
    exists x: Vector :: |x| == n && x != Zeros(n) && Solves(m, Zeros(n), x, n)
  }

  /** A matrix with the same right-hand sides a and b as the original system, and solved by the
      same vectors; 0 is a right-hand side, too. */
  ghost predicate SameSolutions(m: Matrix, a: Vector, b: Vector, m': Matrix, a': Vector, b': Vector, n: nat)
    requires IsSquare(m, n) && |a| == |b| == n && IsSquare(m', n) && |a'| == |b'| == n
  {
    forall x: Vector :: |x| == n ==> SolvedAlike(m, a, b, m', a', b', x, n)
  }

  ghost predicate SolvedAlike(m: Matrix, a: Vector, b: Vector, m': Matrix, a': Vector, b': Vector, x: Vector, n: nat)
    requires IsSquare(m, n) && |a| == |b| == n && IsSquare(m', n) && |a'| == |b'| == n && |x| == n
  {
    && (Solves(m', a', x, n) <==> Solves(m, a, x, n))
    && (Solves(m', b', x, n) <==> Solves(m, b, x, n))
    && (Solves(m', Zeros(n), x, n) <==> Solves(m, Zeros(n), x, n))
  }

  // ----- row operations

  function Swapped<T>(s: seq<T>, i: nat, k: nat): seq<T>
    requires i < |s| && k < |s|
  {
    s[i := s[k]][k := s[i]]
  }

  function Less(a: real, f: real, b: real): real { a - f * b }

  // f times row i is subtracted from row k.
  function Minus(u: Vector, f: real, v: Vector): (w: Vector)
    requires |u| == |v|
    ensures |w| == |u|
  {
    seq(|u|, l requires 0 <= l < |u| => Less(u[l], f, v[l]))
  }

  function RowSubtracted(m: Matrix, k: nat, f: real, i: nat, n: nat): (m': Matrix)
    requires IsSquare(m, n) && k < n && i < n
    ensures IsSquare(m', n)
  {
    m[k := Minus(m[k], f, m[i])]
  }

  function EntrySubtracted(a: Vector, k: nat, f: real, i: nat): (a': Vector)
    requires k < |a| && i < |a|
    ensures |a'| == |a|
  {
    a[k := Less(a[k], f, a[i])]
  }

  lemma {:induction false} DotMinus(u: Vector, f: real, v: Vector, x: Vector, n: nat)
    requires n <= |u| == |v| && n <= |x|
    ensures Dot(Minus(u, f, v), x, n) == Dot(u, x, n) - f * Dot(v, x, n)
  {
    if n > 0 {
      DotMinus(u, f, v, x, n - 1);
      var d := Dot(v, x, n - 1);
      Distribute(u[n - 1], f, v[n - 1], x[n - 1]);
      assert f * (d + v[n - 1] * x[n - 1]) == f * d + f * (v[n - 1] * x[n - 1]);
    }
  }

  lemma Distribute(a: real, f: real, b: real, x: real)
    ensures (a - f * b) * x == a * x - f * (b * x)
  {
  }

  lemma SwapKeepsSolutions(m: Matrix, a: Vector, x: Vector, i: nat, k: nat, n: nat)
    requires IsSquare(m, n) && |a| == |x| == n && i < n && k < n
    ensures IsSquare(Swapped(m, i, k), n)
    ensures Solves(Swapped(m, i, k), Swapped(a, i, k), x, n) <==> Solves(m, a, x, n)
  {
    var m', a' := Swapped(m, i, k), Swapped(a, i, k);
    if Solves(m', a', x, n) {
      assert Dot(m'[i], x, n) == a'[i] && Dot(m'[k], x, n) == a'[k];
      forall l | 0 <= l < n ensures Dot(m[l], x, n) == a[l] {
        assert Dot(m'[l], x, n) == a'[l];
      }
    }
  }

  /** Subtracting a multiple of one row from another keeps the solutions. */
  lemma SubtractKeepsSolutions(m: Matrix, a: Vector, x: Vector, k: nat, f: real, i: nat, n: nat)
    requires IsSquare(m, n) && |a| == |x| == n && i < n && k < n && i != k
    ensures Solves(RowSubtracted(m, k, f, i, n), EntrySubtracted(a, k, f, i), x, n) <==> Solves(m, a, x, n)
  {
    var m', a' := RowSubtracted(m, k, f, i, n), EntrySubtracted(a, k, f, i);
    DotMinus(m[k], f, m[i], x, n);
    assert Dot(m'[k], x, n) == Dot(m[k], x, n) - f * Dot(m[i], x, n);
    if Solves(m', a', x, n) {
      assert Dot(m'[i], x, n) == a'[i] && Dot(m'[k], x, n) == a'[k];
      forall l | 0 <= l < n ensures Dot(m[l], x, n) == a[l] {
        assert Dot(m'[l], x, n) == a'[l];
      }
    }
  }

  lemma SwapKeepsAlike(m0: Matrix, a0: Vector, b0: Vector, m: Matrix, a: Vector, b: Vector, i: nat, k: nat, x: Vector, n: nat)
    requires IsSquare(m0, n) && |a0| == |b0| == n && IsSquare(m, n) && |a| == |b| == n && i < n && k < n && |x| == n
    requires SolvedAlike(m0, a0, b0, m, a, b, x, n)
    ensures IsSquare(Swapped(m, i, k), n)
    ensures SolvedAlike(m0, a0, b0, Swapped(m, i, k), Swapped(a, i, k), Swapped(b, i, k), x, n)
  {
    SwapKeepsSolutions(m, a, x, i, k, n);
    SwapKeepsSolutions(m, b, x, i, k, n);
    SwapKeepsSolutions(m, Zeros(n), x, i, k, n);
    SwappedZeros(i, k, n);
  }

  lemma SwapKeepsSquare(m: Matrix, i: nat, k: nat, n: nat)
    requires IsSquare(m, n) && i < n && k < n
    ensures IsSquare(Swapped(m, i, k), n)
  {
  }

  /** Swapping two rows, with their right-hand sides, keeps the solutions. */
  lemma SwapKeepsAll(m0: Matrix, a0: Vector, b0: Vector, m: Matrix, a: Vector, b: Vector, i: nat, k: nat, n: nat)
    requires IsSquare(m0, n) && |a0| == |b0| == n && IsSquare(m, n) && |a| == |b| == n && i < n && k < n
    requires SameSolutions(m0, a0, b0, m, a, b, n)
    ensures IsSquare(Swapped(m, i, k), n)
    ensures SameSolutions(m0, a0, b0, Swapped(m, i, k), Swapped(a, i, k), Swapped(b, i, k), n)
  {
    SwapKeepsSquare(m, i, k, n);
    forall x: Vector | |x| == n
      ensures SolvedAlike(m0, a0, b0, Swapped(m, i, k), Swapped(a, i, k), Swapped(b, i, k), x, n)
    {
      assert SolvedAlike(m0, a0, b0, m, a, b, x, n);
      SwapKeepsAlike(m0, a0, b0, m, a, b, i, k, x, n);
    }
  }

  lemma SwappedZeros(i: nat, k: nat, n: nat)
    requires i < n && k < n
    ensures Swapped(Zeros(n), i, k) == Zeros(n)
  {
  }

  lemma SubtractKeepsAll(m0: Matrix, a0: Vector, b0: Vector, m: Matrix, a: Vector, b: Vector, k: nat, f: real, i: nat, n: nat)
    requires IsSquare(m0, n) && |a0| == |b0| == n && IsSquare(m, n) && |a| == |b| == n && i < n && k < n && i != k
    requires SameSolutions(m0, a0, b0, m, a, b, n)
    ensures SameSolutions(m0, a0, b0, RowSubtracted(m, k, f, i, n), EntrySubtracted(a, k, f, i), EntrySubtracted(b, k, f, i), n)
  {
    var m', z := RowSubtracted(m, k, f, i, n), Zeros(n);
    assert EntrySubtracted(z, k, f, i) == z;
    forall x: Vector | |x| == n ensures SolvedAlike(m0, a0, b0, m', EntrySubtracted(a, k, f, i), EntrySubtracted(b, k, f, i), x, n) {
      assert SolvedAlike(m0, a0, b0, m, a, b, x, n);
      SubtractKeepsSolutions(m, a, x, k, f, i, n);
      SubtractKeepsSolutions(m, b, x, k, f, i, n);
      SubtractKeepsSolutions(m, z, x, k, f, i, n);
    }
  }

  // ----- reduced matrices

  /** The first c columns have nothing but their diagonal entries. */
  ghost predicate Reduced(m: Matrix, c: nat, n: nat)
    requires IsSquare(m, n) && c <= n
  {
    forall l :: 0 <= l < c ==> ColumnReduced(m, l, n)
  }

  ghost predicate ColumnReduced(m: Matrix, l: nat, n: nat)
    requires IsSquare(m, n) && l < n
  {
    m[l][l] != 0.0 && forall k :: 0 <= k < n && k != l ==> m[k][l] == 0.0
  }

  // A row with no entry but one.
  lemma {:induction false} DotOne(u: Vector, x: Vector, i: nat, n: nat)
    requires i < n <= |u| && n <= |x| && forall l :: 0 <= l < n && l != i ==> u[l] * x[l] == 0.0
    ensures Dot(u, x, n) == u[i] * x[i]
  {
    if i < n - 1 { DotOne(u, x, i, n - 1); } else { DotNone(u, x, n - 1); }
  }

  lemma {:induction false} DotNone(u: Vector, x: Vector, n: nat)
    requires n <= |u| && n <= |x| && forall l :: 0 <= l < n ==> u[l] * x[l] == 0.0
    ensures Dot(u, x, n) == 0.0
  {
    if n > 0 { DotNone(u, x, n - 1); }
  }

  lemma {:induction false} DotTwo(u: Vector, x: Vector, i: nat, k: nat, n: nat)
    requires i < k < n <= |u| && n <= |x| && forall l :: 0 <= l < n && l != i && l != k ==> u[l] * x[l] == 0.0
    ensures Dot(u, x, n) == u[i] * x[i] + u[k] * x[k]
  {
    if k < n - 1 { DotTwo(u, x, i, k, n - 1); } else { DotOne(u, x, i, n - 1); }
  }

  // The vector that shows that a matrix with an empty column below its reduced part is singular.
  function Kernel(m: Matrix, c: nat, n: nat): (x: Vector)
    requires IsSquare(m, n) && c < n && forall l :: 0 <= l < c ==> m[l][l] != 0.0
    ensures |x| == n
  {
    seq(n, l requires 0 <= l < n => if l < c then -(m[l][c] / m[l][l]) else if l == c then 1.0 else 0.0)
  }

  lemma KernelRow(m: Matrix, c: nat, n: nat, k: nat)
    requires IsSquare(m, n) && c < n && k < n && Reduced(m, c, n)
    requires forall r :: c <= r < n ==> m[r][c] == 0.0
    ensures forall l :: 0 <= l < c ==> m[l][l] != 0.0
    ensures Dot(m[k], Kernel(m, c, n), n) == 0.0
  {
    forall l | 0 <= l < c ensures m[l][l] != 0.0 { assert ColumnReduced(m, l, n); }
    var x := Kernel(m, c, n);
    forall l | 0 <= l < n && l != k && l != c ensures m[k][l] * x[l] == 0.0 {
      if l < c { assert ColumnReduced(m, l, n); }
    }
    if k < c {
      DotTwo(m[k], x, k, c, n);
      assert m[k][k] * x[k] == -m[k][c];
    } else {
      forall l | 0 <= l < n ensures m[k][l] * x[l] == 0.0 {
        if l < c { assert ColumnReduced(m, l, n); }
      }
      DotNone(m[k], x, n);
    }
  }

  /** An empty column below the reduced part makes the matrix singular. */
  lemma EmptyColumnIsSingular(m: Matrix, c: nat, n: nat)
    requires IsSquare(m, n) && c < n && Reduced(m, c, n) && forall r :: c <= r < n ==> m[r][c] == 0.0
    ensures Singular(m, n)
  {
    KernelRow(m, c, n, 0);
    var x := Kernel(m, c, n);
    forall k | 0 <= k < n ensures Dot(m[k], x, n) == Zeros(n)[k] { KernelRow(m, c, n, k); }
    assert x[c] == 1.0 && Zeros(n)[c] == 0.0;
  }

  // The rows of a reduced matrix, for a vector.
  lemma ReducedRow(m: Matrix, x: Vector, i: nat, n: nat)
    requires IsSquare(m, n) && Reduced(m, n, n) && |x| == n && i < n
    ensures m[i][i] != 0.0 && Dot(m[i], x, n) == m[i][i] * x[i]
  {
    assert ColumnReduced(m, i, n);
    forall l | 0 <= l < n && l != i ensures m[i][l] * x[l] == 0.0 {
      assert ColumnReduced(m, l, n);
    }
    DotOne(m[i], x, i, n);
  }

  /** A matrix that is reduced in all columns is not singular, and division solves it. */
  lemma ReducedIsRegular(m: Matrix, a: Vector, x: Vector, n: nat)
    requires IsSquare(m, n) && Reduced(m, n, n) && |a| == |x| == n
    requires forall i :: 0 <= i < n ==> m[i][i] != 0.0 && x[i] == a[i] / m[i][i]
    ensures !Singular(m, n) && Solves(m, a, x, n)
  {
    forall i | 0 <= i < n ensures Dot(m[i], x, n) == a[i] { ReducedRow(m, x, i, n); }
    forall y: Vector | |y| == n && Solves(m, Zeros(n), y, n) ensures y == Zeros(n) {
      forall i | 0 <= i < n ensures y[i] == 0.0 {
        ReducedRow(m, y, i, n);
        assert Dot(m[i], y, n) == Zeros(n)[i];
      }
    }
  }

  // Systems with the same solutions are singular together.
  lemma SingularTogether(m: Matrix, a: Vector, b: Vector, m': Matrix, a': Vector, b': Vector, n: nat)
    requires IsSquare(m, n) && |a| == |b| == n && IsSquare(m', n) && |a'| == |b'| == n
    requires SameSolutions(m, a, b, m', a', b', n)
    ensures Singular(m, n) <==> Singular(m', n)
  {
    forall x: Vector | |x| == n ensures SolvedAlike(m, a, b, m', a', b', x, n) {
    }
    if Singular(m, n) {
      var x: Vector :| |x| == n && x != Zeros(n) && Solves(m, Zeros(n), x, n);
      assert SolvedAlike(m, a, b, m', a', b', x, n);
    }
    if Singular(m', n) {
      var x: Vector :| |x| == n && x != Zeros(n) && Solves(m', Zeros(n), x, n);
      assert SolvedAlike(m, a, b, m', a', b', x, n);
    }
  }
}
