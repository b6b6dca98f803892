/** Gauss-Jordan elimination with pivoting, in place, for two right-hand sides at once. */
module SolveMat {
  import opened LinearSystems

  datatype Status = Success | NotEnoughPoints | Unsolvable | ParameterError | InternalError

  ghost function Rows(v: array2<real>): (m: Matrix)
    reads v
    ensures v.Length0 == v.Length1 ==> IsSquare(m, v.Length0)
  {
    seq(v.Length0, i requires 0 <= i < v.Length0 reads v => seq(v.Length1, l requires 0 <= l < v.Length1 reads v => v[i, l]))
  }

  function Fabs(x: real): real { if x < 0.0 then -x else x }

  // The row at or below row i with the largest entry in column i, and that entry.
  method FindPivot(v: array2<real>, i: nat) returns (pivot: real, imark: nat)
    requires i < v.Length0 == v.Length1
    ensures i <= imark < v.Length0 && pivot == v[imark, i]
    ensures forall k :: i <= k < v.Length0 ==> Fabs(v[k, i]) <= Fabs(pivot)
  {
    pivot, imark := v[i, i], i;
    for i2 := i + 1 to v.Length0
      invariant i <= imark < v.Length0 && pivot == v[imark, i]
      invariant forall k :: i <= k < i2 ==> Fabs(v[k, i]) <= Fabs(pivot)
    {
      var temp := Fabs(v[i2, i]);
      if temp > Fabs(pivot) {
        pivot, imark := v[i2, i], i2;
      }
    }
  }

  method SwapRows(v: array2<real>, i: nat, k: nat)
    requires i < v.Length0 == v.Length1 && k < v.Length0 && i != k
    modifies v
    ensures Rows(v) == Swapped(old(Rows(v)), i, k)
  {
    for j2 := 0 to v.Length1
      invariant forall l :: 0 <= l < j2 ==> v[i, l] == old(v[k, l]) && v[k, l] == old(v[i, l])
      invariant forall l :: j2 <= l < v.Length1 ==> v[i, l] == old(v[i, l]) && v[k, l] == old(v[k, l])
      invariant forall r, l :: 0 <= r < v.Length0 && 0 <= l < v.Length1 && r != i && r != k ==> v[r, l] == old(v[r, l])
    {
      var temp := v[k, j2];
      v[k, j2] := v[i, j2];
      v[i, j2] := temp;
    }
    forall r | 0 <= r < v.Length0 ensures Rows(v)[r] == Swapped(old(Rows(v)), i, k)[r] {
    }
  }

  method SwapEntries(a: array<real>, i: nat, k: nat)
    requires i < a.Length && k < a.Length
    modifies a
    ensures a[..] == Swapped(old(a[..]), i, k)
  {
    var temp := a[k];
    a[k] := a[i];
    a[i] := temp;
  }

  // Row k loses f times row i, whose entries before column i are zero.
  method SubtractRow(v: array2<real>, k: nat, f: real, i: nat)
    requires i < v.Length0 == v.Length1 && k < v.Length0 && i != k
    requires forall l :: 0 <= l < i ==> v[i, l] == 0.0
    modifies v
    ensures Rows(v) == RowSubtracted(old(Rows(v)), k, f, i, v.Length0)
  {
    for j2 := i to v.Length1
      invariant forall l :: i <= l < j2 ==> v[k, l] == old(Less(v[k, l], f, v[i, l]))
      invariant forall l :: 0 <= l < v.Length1 && (l < i || j2 <= l) ==> v[k, l] == old(v[k, l])
      invariant forall r, l :: 0 <= r < v.Length0 && 0 <= l < v.Length1 && r != k ==> v[r, l] == old(v[r, l])
    {
      v[k, j2] := Less(v[k, j2], f, v[i, j2]);
    }
    assert forall l :: 0 <= l < i ==> old(Less(v[k, l], f, v[i, l])) == old(v[k, l]) - f * 0.0;
    assert forall l :: 0 <= l < v.Length1 ==> v[k, l] == old(Less(v[k, l], f, v[i, l]));
    ghost var m := old(Rows(v));
    assert Rows(v)[k] == Minus(m[k], f, m[i]) by {
      assert forall l :: 0 <= l < v.Length1 ==> Rows(v)[k][l] == v[k, l];
    }
    forall r | 0 <= r < v.Length0 && r != k ensures Rows(v)[r] == m[r] {
    }
    assert Rows(v) == RowSubtracted(m, k, f, i, v.Length0);
  }

  /** A system in place, of n equations for both right-hand sides. */
  ghost predicate IsSystem(v: array2<real>, a: array<real>, b: array<real>, n: nat) {
    v.Length0 == v.Length1 == a.Length == b.Length == n && a != b
  }

  /** The first c columns are reduced, and the solutions are those of the original system. */
  ghost predicate Going(m0: Matrix, a0: Vector, b0: Vector, m: Matrix, a: Vector, b: Vector, c: nat, n: nat) {
    && IsSquare(m0, n) && |a0| == |b0| == n && IsSquare(m, n) && |a| == |b| == n && c <= n
    && SameSolutions(m0, a0, b0, m, a, b, n) && Reduced(m, c, n)
  }

  lemma SwapKeepsGoing(m0: Matrix, a0: Vector, b0: Vector, m: Matrix, a: Vector, b: Vector, c: nat, k: nat, n: nat)
    requires Going(m0, a0, b0, m, a, b, c, n) && c <= k < n
    ensures Going(m0, a0, b0, Swapped(m, c, k), Swapped(a, c, k), Swapped(b, c, k), c, n)
  {
    SwapKeepsAll(m0, a0, b0, m, a, b, c, k, n);
    forall l | 0 <= l < c ensures ColumnReduced(Swapped(m, c, k), l, n) {
      assert ColumnReduced(m, l, n);
    }
  }

  // The entries of column c in the first k rows are zero, but for the one on the diagonal.
  ghost predicate ClearedUpTo(m: Matrix, c: nat, k: nat, n: nat)
    requires IsSquare(m, n) && c < n && k <= n
  {
    m[c][c] != 0.0 && forall r :: 0 <= r < k && r != c ==> m[r][c] == 0.0
  }

  lemma SubtractKeepsReduced(m: Matrix, c: nat, k: nat, f: real, n: nat)
    requires IsSquare(m, n) && c < n && k < n && k != c && Reduced(m, c, n)
    ensures Reduced(RowSubtracted(m, k, f, c, n), c, n)
  {
    forall l | 0 <= l < c ensures ColumnReduced(RowSubtracted(m, k, f, c, n), l, n) {
      assert ColumnReduced(m, l, n);
    }
  }

  lemma SubtractClears(m: Matrix, c: nat, k: nat, f: real, n: nat, pivot: real, entry: real)
    requires IsSquare(m, n) && c < n && k < n && k != c && ClearedUpTo(m, c, k, n)
    requires m[c][c] == pivot && m[k][c] == entry && Less(entry, f, pivot) == 0.0
    ensures ClearedUpTo(RowSubtracted(m, k, f, c, n), c, k + 1, n)
  {
  }

  lemma Quotient(x: real, y: real)
    requires y != 0.0
    ensures Less(x, x / y, y) == 0.0
  {
  }

  lemma SubtractKeepsGoing(m0: Matrix, a0: Vector, b0: Vector, m: Matrix, a: Vector, b: Vector, c: nat, k: nat, f: real, n: nat,
                           pivot: real, entry: real)
    requires Going(m0, a0, b0, m, a, b, c, n) && c < n && k < n && k != c && ClearedUpTo(m, c, k, n)
    requires m[c][c] == pivot && m[k][c] == entry && Less(entry, f, pivot) == 0.0
    ensures Going(m0, a0, b0, RowSubtracted(m, k, f, c, n), EntrySubtracted(a, k, f, c), EntrySubtracted(b, k, f, c), c, n)
    ensures ClearedUpTo(RowSubtracted(m, k, f, c, n), c, k + 1, n)
  {
    SubtractKeepsAll(m0, a0, b0, m, a, b, k, f, c, n);
    SubtractKeepsReduced(m, c, k, f, n);
    SubtractClears(m, c, k, f, n, pivot, entry);
  }

  // Row k is cleared in column c.
  method ClearEntry(v: array2<real>, a: array<real>, b: array<real>, k: nat, c: nat, pivot: real, ghost n: nat,
                    ghost m0: Matrix, ghost a0: Vector, ghost b0: Vector)
    requires IsSystem(v, a, b, n) && Going(m0, a0, b0, Rows(v), a[..], b[..], c, n) && c < n && k < n && k != c
    requires pivot == v[c, c] && ClearedUpTo(Rows(v), c, k, n)
    modifies v, a, b
    ensures Going(m0, a0, b0, Rows(v), a[..], b[..], c, n) && pivot == v[c, c] && ClearedUpTo(Rows(v), c, k + 1, n)
  {
    assert Rows(v)[c][c] == v[c, c] && Rows(v)[k][c] == v[k, c];
    var factor := v[k, c] / pivot;
    Quotient(v[k, c], pivot);
    SubtractKeepsGoing(m0, a0, b0, Rows(v), a[..], b[..], c, k, factor, n, pivot, v[k, c]);
    ApplyFactor(v, a, b, k, factor, c, n);
    assert Rows(v)[c][c] == v[c, c];
  }

  method SubtractEntry(a: array<real>, k: nat, factor: real, c: nat)
    requires k < a.Length && c < a.Length
    modifies a
    ensures a[..] == EntrySubtracted(old(a[..]), k, factor, c)
  {
    a[k] := Less(a[k], factor, a[c]);
  }

  // A multiple of equation c is subtracted from equation k.
  method ApplyFactor(v: array2<real>, a: array<real>, b: array<real>, k: nat, factor: real, c: nat, ghost n: nat)
    requires IsSystem(v, a, b, n) && c < n && k < n && k != c && Reduced(Rows(v), c, n)
    modifies v, a, b
    ensures Rows(v) == RowSubtracted(old(Rows(v)), k, factor, c, n) && v[c, c] == old(v[c, c])
    ensures a[..] == EntrySubtracted(old(a[..]), k, factor, c) && b[..] == EntrySubtracted(old(b[..]), k, factor, c)
  {
    ZerosBefore(Rows(v), c, n);
    assert forall l :: 0 <= l < c ==> v[c, l] == Rows(v)[c][l];
    assert Rows(v)[c][c] == v[c, c];
    SubtractRow(v, k, factor, c);
    SubtractEntry(a, k, factor, c);
    SubtractEntry(b, k, factor, c);
    assert Rows(v)[c][c] == v[c, c];
  }

  lemma ZerosBefore(m: Matrix, c: nat, n: nat)
    requires IsSquare(m, n) && c < n && Reduced(m, c, n)
    ensures forall l :: 0 <= l < c ==> m[c][l] == 0.0
  {
    forall l | 0 <= l < c ensures m[c][l] == 0.0 { assert ColumnReduced(m, l, n); }
  }

  lemma ColumnDone(m0: Matrix, a0: Vector, b0: Vector, m: Matrix, a: Vector, b: Vector, c: nat, n: nat)
    requires Going(m0, a0, b0, m, a, b, c, n) && c < n && ClearedUpTo(m, c, n, n)
    ensures Going(m0, a0, b0, m, a, b, c + 1, n)
  {
    assert ColumnReduced(m, c, n);
  }

  // All rows but row c are cleared in column c.
  method ClearColumn(v: array2<real>, a: array<real>, b: array<real>, c: nat, pivot: real, ghost n: nat,
                     ghost m0: Matrix, ghost a0: Vector, ghost b0: Vector)
    requires IsSystem(v, a, b, n) && Going(m0, a0, b0, Rows(v), a[..], b[..], c, n) && c < n && pivot == v[c, c] != 0.0
    modifies v, a, b
    ensures Going(m0, a0, b0, Rows(v), a[..], b[..], c + 1, n)
  {
    assert Rows(v)[c][c] == v[c, c];
    for i2 := 0 to v.Length0
      invariant Going(m0, a0, b0, Rows(v), a[..], b[..], c, n) && pivot == v[c, c] && ClearedUpTo(Rows(v), c, i2, n)
    {
      if i2 != c { ClearEntry(v, a, b, i2, c, pivot, n, m0, a0, b0); }
    }
    ColumnDone(m0, a0, b0, Rows(v), a[..], b[..], c, n);
  }

  // The row with the largest entry goes to row c.
  method MovePivot(v: array2<real>, a: array<real>, b: array<real>, c: nat, imark: nat, ghost n: nat,
                   ghost m0: Matrix, ghost a0: Vector, ghost b0: Vector)
    requires IsSystem(v, a, b, n) && Going(m0, a0, b0, Rows(v), a[..], b[..], c, n) && c <= imark < n
    modifies v, a, b
    ensures Going(m0, a0, b0, Rows(v), a[..], b[..], c, n) && v[c, c] == old(v[imark, c])
  {
    if imark != c {
      SwapKeepsGoing(m0, a0, b0, Rows(v), a[..], b[..], c, imark, n);
      SwapRows(v, c, imark);
      SwapEntries(a, c, imark);
      SwapEntries(b, c, imark);
      assert v[c, c] == Rows(v)[c][c];
    }
  }

  // Column c is reduced, unless there is no pivot.
  method ReduceColumn(v: array2<real>, a: array<real>, b: array<real>, c: nat, ghost n: nat,
                      ghost m0: Matrix, ghost a0: Vector, ghost b0: Vector) returns (ok: bool)
    requires IsSystem(v, a, b, n) && Going(m0, a0, b0, Rows(v), a[..], b[..], c, n) && c < n
    modifies v, a, b
    ensures if ok then Going(m0, a0, b0, Rows(v), a[..], b[..], c + 1, n) else Singular(m0, n)
  {
    var pivot, imark := FindPivot(v, c);
    if pivot == 0.0 {
      assert forall r :: c <= r < n ==> v[r, c] == Rows(v)[r][c];
      EmptyColumnIsSingular(Rows(v), c, n);
      SingularTogether(m0, a0, b0, Rows(v), a[..], b[..], n);
      return false;
    }
    MovePivot(v, a, b, c, imark, n, m0, a0, b0);
    ClearColumn(v, a, b, c, pivot, n, m0, a0, b0);
    ok := true;
  }

  // The solutions of a reduced system.
  method Divide(v: array2<real>, a: array<real>, b: array<real>, n: nat, ghost m0: Matrix, ghost a0: Vector, ghost b0: Vector)
    returns (e: Vector, f: Vector)
    requires IsSystem(v, a, b, n) && Going(m0, a0, b0, Rows(v), a[..], b[..], n, n)
    ensures |e| == |f| == n && Solves(m0, a0, e, n) && Solves(m0, b0, f, n) && !Singular(m0, n)
  {
    e, f := [], [];
    assert forall i :: 0 <= i < n ==> v[i, i] == Rows(v)[i][i];
    for i := 0 to n
      invariant |e| == |f| == i
      invariant forall l :: 0 <= l < i ==> Rows(v)[l][l] != 0.0 && e[l] == a[l] / Rows(v)[l][l] && f[l] == b[l] / Rows(v)[l][l]
    {
      assert ColumnReduced(Rows(v), i, n);
      e, f := e + [a[i] / v[i, i]], f + [b[i] / v[i, i]];
    }
    QuotientsSolve(m0, a0, b0, Rows(v), a[..], b[..], e, f, n);
  }

  lemma QuotientsSolve(m0: Matrix, a0: Vector, b0: Vector, m: Matrix, a: Vector, b: Vector, e: Vector, f: Vector, n: nat)
    requires Going(m0, a0, b0, m, a, b, n, n) && |e| == |f| == n
    requires forall l :: 0 <= l < n ==> m[l][l] != 0.0 && e[l] == a[l] / m[l][l] && f[l] == b[l] / m[l][l]
    ensures Solves(m0, a0, e, n) && Solves(m0, b0, f, n) && !Singular(m0, n)
  {
    ReducedIsRegular(m, a, e, n);
    ReducedIsRegular(m, b, f, n);
    SingularTogether(m0, a0, b0, m, a, b, n);
    assert SolvedAlike(m0, a0, b0, m, a, b, e, n);
    assert SolvedAlike(m0, a0, b0, m, a, b, f, n);
  }

  /** Solves a system for two right-hand sides, and fails exactly when its matrix is singular. */
  method SolveMat(v: array2<real>, a: array<real>, b: array<real>, n: nat) returns (status: Status, e: Vector, f: Vector)
    requires IsSystem(v, a, b, n)
    modifies v, a, b
    ensures status == if Singular(old(Rows(v)), n) then Unsolvable else Success
    ensures status == Success ==>
              |e| == |f| == n && Solves(old(Rows(v)), old(a[..]), e, n) && Solves(old(Rows(v)), old(b[..]), f, n)
  {
    ghost var m0, a0, b0 := Rows(v), a[..], b[..];
    e, f := [], [];
    for i := 0 to n
      invariant Going(m0, a0, b0, Rows(v), a[..], b[..], i, n)
    {
      var ok := ReduceColumn(v, a, b, i, n, m0, a0, b0);
      if !ok { return Unsolvable, e, f; }
    }
    e, f := Divide(v, a, b, n, m0, a0, b0);
    status := Success;
  }
}
