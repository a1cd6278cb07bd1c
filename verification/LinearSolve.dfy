/**
 * Gaussian elimination with partial pivoting, as used for the 6x6 system of the
 * inverse kinematics and, with its own threshold, for the 3x3 system of the circle fit.
 */
module LinearSolve {
  import opened RealMath

  /** `n` rows of `n` coefficients and one right-hand side. */
  type Matrix = seq<seq<real>>

  ghost predicate Shape(v: Matrix, n: nat) {
    |v| == n && forall i :: 0 <= i < n ==> |v[i]| == n + 1
  }

  /** Pivots that are refused: below the limit, or exactly at it when `inclusive`. */
  datatype Threshold = Threshold(limit: real, inclusive: bool)
  {
    predicate Refuses(pivot: real) {
      Abs(pivot) < limit || (inclusive && Abs(pivot) == limit)
    }
  }

  const MATRIX6 := Threshold(0.00000000000001, false)
  const CIRCULAR_SOLVE := Threshold(0.000000000000001, true)

  function Times(a: real, b: real): real { a * b }

  /** Sum of the products at indices `lo` up to `hi`. */
  function Sum(u: seq<real>, y: seq<real>, lo: nat, hi: nat): real
    requires hi <= |u| && hi <= |y|
    decreases hi
  {
    if lo >= hi then 0.0 else Sum(u, y, lo, hi - 1) + Times(u[hi - 1], y[hi - 1])
  }

  ghost predicate Satisfies(row: seq<real>, y: seq<real>, n: nat) {
    |row| == n + 1 && |y| == n && Sum(row, y, 0, n) == row[n]
  }

  ghost predicate Solves(v: Matrix, y: seq<real>, n: nat)
    requires Shape(v, n)
  {
    |y| == n && forall i :: 0 <= i < n ==> Satisfies(v[i], y, n)
  }

  // ---- the algorithm on values ----

  /** The row, among `best` and those from `i` on, with the largest entry in column `k`; the first of equals. */
  function PivotRow(v: Matrix, n: nat, k: nat, best: nat, i: nat): (r: nat)
    requires Shape(v, n) && k < n && best < n && i <= n
    ensures r < n && (r == best || i <= r)
    decreases n - i
  {
    if i == n then best
    else PivotRow(v, n, k, if Abs(v[i][k]) > Abs(v[best][k]) then i else best, i + 1)
  }

  function Swap(v: Matrix, p: nat, r: nat): Matrix
    requires p < |v| && r < |v|
  {
    v[p := v[r]][r := v[p]]
  }

  /** `row` minus `f` times `pivot`. */
  function Minus(row: seq<real>, f: real, pivot: seq<real>): (r: seq<real>)
    requires |row| == |pivot|
    ensures |r| == |row|
  {
    seq(|row|, j requires 0 <= j < |row| => row[j] - Times(f, pivot[j]))
  }

  function Clear(v: Matrix, n: nat, k: nat, i: nat): (w: Matrix)
    requires Shape(v, n) && k < n && i < n && v[k][k] != 0.0
    ensures Shape(w, n)
  {
    v[i := Minus(v[i], v[i][k] / v[k][k], v[k])]
  }

  /** Clears column `k` in the rows from `i` on. */
  function ClearBelow(v: Matrix, n: nat, k: nat, i: nat): (w: Matrix)
    requires Shape(v, n) && k < i <= n && v[k][k] != 0.0
    ensures Shape(w, n)
    decreases n - i
  {
    if i == n then v else ClearBelow(Clear(v, n, k, i), n, k, i + 1)
  }

  datatype Option<T> = None | Some(value: T)

  /** Forward elimination from column `k` on. */
  function Reduce(v: Matrix, n: nat, k: nat, t: Threshold): (w: Option<Matrix>)
    requires Shape(v, n) && k <= n && t.limit > 0.0
    ensures w.Some? ==> Shape(w.value, n)
    decreases n - k
  {
    if k == n then Some(v)
    else
      var r := PivotRow(v, n, k, k, k + 1);
      if t.Refuses(v[r][k]) then None
      else Reduce(ClearBelow(Swap(v, k, r), n, k, k + 1), n, k + 1, t)
  }

  // ---- what elimination keeps ----

  ghost predicate SameSolutions(v: Matrix, w: Matrix, n: nat)
    requires Shape(v, n) && Shape(w, n)
  {
    forall y :: Solves(v, y, n) <==> Solves(w, y, n)
  }

  /** Columns below `k` are zero below the diagonal. */
  ghost predicate Cleared(v: Matrix, n: nat, k: nat)
    requires Shape(v, n)
  {
    forall i, j :: 0 <= j < k && j < i < n ==> v[i][j] == 0.0
  }

  ghost predicate GoodPivots(v: Matrix, n: nat, k: nat, t: Threshold)
    requires Shape(v, n)
  {
    forall i :: 0 <= i < k && i < n ==> !t.Refuses(v[i][i])
  }

  lemma {:induction false} SumMinus(row: seq<real>, f: real, pivot: seq<real>, y: seq<real>, hi: nat)
    requires |row| == |pivot| && hi <= |row| && hi <= |y|
    ensures Sum(Minus(row, f, pivot), y, 0, hi) == Sum(row, y, 0, hi) - Times(f, Sum(pivot, y, 0, hi))
  {
    if hi > 0 {
      SumMinus(row, f, pivot, y, hi - 1);
      Expand(row[hi - 1], f, pivot[hi - 1], y[hi - 1], Sum(pivot, y, 0, hi - 1));
    } else {
      TimesZero(f);
    }
  }

  lemma Expand(a: real, f: real, b: real, y: real, rest: real)
    ensures Times(a - Times(f, b), y) + -Times(f, rest) == Times(a, y) - Times(f, rest + Times(b, y))
  {}

  lemma TimesZero(f: real)
    ensures Times(f, 0.0) == 0.0 && Times(0.0, f) == 0.0
  {}

  lemma MinusKeeps(row: seq<real>, f: real, pivot: seq<real>, y: seq<real>, n: nat)
    requires |row| == n + 1 && Satisfies(pivot, y, n)
    ensures Satisfies(Minus(row, f, pivot), y, n) <==> Satisfies(row, y, n)
  {
    SumMinus(row, f, pivot, y, n);
  }

  lemma ClearKeeps(v: Matrix, n: nat, k: nat, i: nat)
    requires Shape(v, n) && k < n && i < n && i != k && v[k][k] != 0.0
    ensures SameSolutions(v, Clear(v, n, k, i), n)
  {
    hide Satisfies, Minus;
    var f, w := v[i][k] / v[k][k], Clear(v, n, k, i);
    forall y
      ensures Solves(v, y, n) <==> Solves(w, y, n)
    {
      assert w[k] == v[k] && w[i] == Minus(v[i], f, v[k]);
      assert forall a :: 0 <= a < n && a != i ==> w[a] == v[a];
      if |y| == n {
        if Satisfies(v[k], y, n) {
          MinusKeeps(v[i], f, v[k], y, n);
        } else {
          assert !Satisfies(w[k], y, n);
        }
      }
    }
  }

  lemma SwapKeeps(v: Matrix, n: nat, p: nat, r: nat)
    requires Shape(v, n) && p < n && r < n
    ensures Shape(Swap(v, p, r), n) && SameSolutions(v, Swap(v, p, r), n)
  {
    hide Satisfies;
    var w := Swap(v, p, r);
    forall y
      ensures Solves(v, y, n) <==> Solves(w, y, n)
    {
      assert forall a :: 0 <= a < n ==> w[a] == v[if a == p then r else if a == r then p else a];
      assert forall a :: 0 <= a < n ==> v[a] == w[if a == p then r else if a == r then p else a];
    }
  }

  lemma ClearedEntry(row: seq<real>, pivot: seq<real>, k: nat)
    requires |row| == |pivot| && k < |row| && pivot[k] != 0.0 && (forall j :: 0 <= j < k ==> pivot[j] == 0.0)
    ensures var c := Minus(row, row[k] / pivot[k], pivot);
            c[k] == 0.0 && forall j :: 0 <= j < k ==> c[j] == row[j]
  {
    forall f
      ensures Times(f, 0.0) == 0.0
    {
      TimesZero(f);
    }
    QuotientTimes(row[k], pivot[k]);
  }

  lemma QuotientTimes(a: real, b: real)
    requires b != 0.0
    ensures Times(a / b, b) == a
  {}

  lemma {:induction false} ClearBelowKeeps(v: Matrix, n: nat, k: nat, i: nat, t: Threshold)
    requires Shape(v, n) && k < i <= n && v[k][k] != 0.0
    requires Cleared(v, n, k) && (forall a :: k < a < i ==> v[a][k] == 0.0) && GoodPivots(v, n, k + 1, t)
    ensures var w := ClearBelow(v, n, k, i);
            SameSolutions(v, w, n) && Cleared(w, n, k + 1) && GoodPivots(w, n, k + 1, t)
    decreases n - i
  {
    hide Minus, SameSolutions, Threshold.Refuses;
    if i < n {
      var w := Clear(v, n, k, i);
      ClearKeeps(v, n, k, i);
      ClearedEntry(v[i], v[k], k);
      ClearBelowKeeps(w, n, k, i + 1, t);
      SameTransitive(v, w, ClearBelow(v, n, k, i), n);
    } else {
      SameReflexive(v, n);
    }
  }

  lemma SameReflexive(v: Matrix, n: nat)
    requires Shape(v, n)
    ensures SameSolutions(v, v, n)
  {}

  lemma SameTransitive(u: Matrix, v: Matrix, w: Matrix, n: nat)
    requires Shape(u, n) && Shape(v, n) && Shape(w, n) && SameSolutions(u, v, n) && SameSolutions(v, w, n)
    ensures SameSolutions(u, w, n)
  {}

  lemma RefusedZero(t: Threshold, a: real)
    requires t.limit > 0.0 && !t.Refuses(a)
    ensures a != 0.0
  {}

  lemma PivotColumnStep(v: Matrix, n: nat, k: nat, t: Threshold, r: nat)
    requires Shape(v, n) && k <= r < n && t.limit > 0.0 && Cleared(v, n, k) && GoodPivots(v, n, k, t)
             && !t.Refuses(v[r][k])
    ensures var s := Swap(v, k, r); Shape(s, n) && s[k][k] != 0.0
    ensures var w := ClearBelow(Swap(v, k, r), n, k, k + 1);
            SameSolutions(v, w, n) && Cleared(w, n, k + 1) && GoodPivots(w, n, k + 1, t)
  {
    hide SameSolutions, Threshold.Refuses;
    var s := Swap(v, k, r);
    SwapKeeps(v, n, k, r);
    RefusedZero(t, v[r][k]);
    assert Cleared(s, n, k);
    ClearBelowKeeps(s, n, k, k + 1, t);
    SameTransitive(v, s, ClearBelow(s, n, k, k + 1), n);
  }

  /** A completed elimination has the same solutions, an upper triangle and no refused pivot. */
  lemma {:induction false} ReduceKeeps(v: Matrix, n: nat, k: nat, t: Threshold)
    requires Shape(v, n) && k <= n && t.limit > 0.0 && Cleared(v, n, k) && GoodPivots(v, n, k, t)
    ensures var w := Reduce(v, n, k, t);
            w.Some? ==> SameSolutions(v, w.value, n) && Cleared(w.value, n, n) && GoodPivots(w.value, n, n, t)
    decreases n - k
  {
    hide SameSolutions, Threshold.Refuses, Cleared, GoodPivots, ClearBelow, Swap, PivotRow;
    SameReflexive(v, n);
    if k < n {
      var r := PivotRow(v, n, k, k, k + 1);
      if !t.Refuses(v[r][k]) {
        PivotColumnStep(v, n, k, t, r);
        var w := ClearBelow(Swap(v, k, r), n, k, k + 1);
        ReduceKeeps(w, n, k + 1, t);
        if Reduce(w, n, k + 1, t).Some? {
          SameTransitive(v, w, Reduce(w, n, k + 1, t).value, n);
        }
      }
    }
  }

  lemma {:induction false} PivotRowLargest(v: Matrix, n: nat, k: nat, best: nat, i: nat)
    requires Shape(v, n) && k < n && best < n && i <= n
    ensures var r := PivotRow(v, n, k, best, i);
            forall a :: 0 <= a < n && (a == best || i <= a) ==> Abs(v[a][k]) <= Abs(v[r][k])
    decreases n - i
  {
    if i < n {
      PivotRowLargest(v, n, k, if Abs(v[i][k]) > Abs(v[best][k]) then i else best, i + 1);
    }
  }

  /** A column whose entries from the diagonal down are all refused. */
  ghost predicate NegligibleColumn(w: Matrix, n: nat, k: nat, t: Threshold)
    requires Shape(w, n)
  {
    k < n && Cleared(w, n, k) && forall a :: k <= a < n ==> t.Refuses(w[a][k])
  }

  /** Elimination gives up only at an equivalent system with a negligible column. */
  lemma {:induction false} RefusedColumn(v: Matrix, n: nat, k: nat, t: Threshold) returns (w: Matrix, c: nat)
    requires Shape(v, n) && k <= n && t.limit > 0.0 && Cleared(v, n, k) && GoodPivots(v, n, k, t)
    requires Reduce(v, n, k, t).None?
    ensures Shape(w, n) && SameSolutions(v, w, n) && NegligibleColumn(w, n, c, t)
    decreases n - k
  {
    hide SameSolutions, Cleared, GoodPivots, ClearBelow, Swap, PivotRow;
    var r := PivotRow(v, n, k, k, k + 1);
    SameReflexive(v, n);
    if t.Refuses(v[r][k]) {
      PivotRowLargest(v, n, k, k, k + 1);
      w, c := v, k;
    } else {
      PivotColumnStep(v, n, k, t, r);
      var u := ClearBelow(Swap(v, k, r), n, k, k + 1);
      w, c := RefusedColumn(u, n, k + 1, t);
      SameTransitive(v, u, w, n);
    }
  }

  // ---- triangular systems ----

  lemma {:induction false} SumSplit(u: seq<real>, y: seq<real>, lo: nat, mid: nat, hi: nat)
    requires lo <= mid <= hi && hi <= |u| && hi <= |y|
    ensures Sum(u, y, lo, hi) == Sum(u, y, lo, mid) + Sum(u, y, mid, hi)
    decreases hi
  {
    if mid < hi {
      SumSplit(u, y, lo, mid, hi - 1);
    }
  }

  lemma {:induction false} SumZero(u: seq<real>, y: seq<real>, hi: nat)
    requires hi <= |u| && hi <= |y| && forall j :: 0 <= j < hi ==> u[j] == 0.0
    ensures Sum(u, y, 0, hi) == 0.0
  {
    if hi > 0 {
      SumZero(u, y, hi - 1);
      TimesZero(y[hi - 1]);
    }
  }

  lemma {:induction false} SumSame(u: seq<real>, y: seq<real>, z: seq<real>, lo: nat, hi: nat)
    requires hi <= |u| && hi <= |y| && hi <= |z| && forall j :: lo <= j < hi ==> y[j] == z[j]
    ensures Sum(u, y, lo, hi) == Sum(u, z, lo, hi)
    decreases hi
  {
    if lo < hi {
      SumSame(u, y, z, lo, hi - 1);
    }
  }

  /** Row `i` of a triangular system mentions only the unknowns from `i` on. */
  lemma TriangularRow(row: seq<real>, y: seq<real>, n: nat, i: nat)
    requires |row| == n + 1 && |y| == n && i < n && forall j :: 0 <= j < i ==> row[j] == 0.0
    ensures Satisfies(row, y, n) <==> Times(row[i], y[i]) + Sum(row, y, i + 1, n) == row[n]
  {
    SumSplit(row, y, 0, i, n);
    SumSplit(row, y, i, i + 1, n);
    SumZero(row, y, i);
    assert Sum(row, y, i, i + 1) == Sum(row, y, i, i) + Times(row[i], y[i]);
  }

  /** The back-substituted value of unknown `i` given those after it. */
  function BackValue(row: seq<real>, y: seq<real>, n: nat, i: nat): real
    requires |row| == n + 1 && |y| == n && i < n && row[i] != 0.0
  {
    (row[n] - Sum(row, y, i + 1, n)) / row[i]
  }

  lemma BackValueIs(row: seq<real>, y: seq<real>, n: nat, i: nat)
    requires |row| == n + 1 && |y| == n && i < n && row[i] != 0.0 && forall j :: 0 <= j < i ==> row[j] == 0.0
    ensures Satisfies(row, y, n) <==> y[i] == BackValue(row, y, n, i)
  {
    TriangularRow(row, y, n, i);
    SolveForFactor(row[i], y[i], row[n] - Sum(row, y, i + 1, n));
  }

  lemma SolveForFactor(a: real, y: real, rhs: real)
    requires a != 0.0
    ensures Times(a, y) == rhs <==> y == rhs / a
  {
    QuotientTimes(rhs, a);
    if Times(a, y) == rhs {
      assert (a * y) / a == y;
    }
  }

  /** The unknowns from `i` on are what back substitution computes. */
  ghost predicate BackSolved(v: Matrix, y: seq<real>, n: nat, i: nat)
    requires Shape(v, n)
  {
    |y| == n && forall a :: i <= a < n ==> v[a][a] != 0.0 && y[a] == BackValue(v[a], y, n, a)
  }

  lemma BackSolvedSolves(v: Matrix, y: seq<real>, n: nat)
    requires Shape(v, n) && Cleared(v, n, n) && |y| == n && forall a :: 0 <= a < n ==> v[a][a] != 0.0
    ensures Solves(v, y, n) <==> BackSolved(v, y, n, 0)
  {
    hide Satisfies, BackValue;
    forall a | 0 <= a < n
      ensures Satisfies(v[a], y, n) <==> y[a] == BackValue(v[a], y, n, a)
    {
      BackValueIs(v[a], y, n, a);
    }
  }

  lemma {:induction false} BackSolvedUnique(v: Matrix, y: seq<real>, z: seq<real>, n: nat, i: nat)
    requires Shape(v, n) && i <= n && BackSolved(v, y, n, i) && BackSolved(v, z, n, i)
    ensures y[i..] == z[i..]
    decreases n - i
  {
    if i < n {
      BackSolvedUnique(v, y, z, n, i + 1);
      forall j | i < j < n
        ensures y[j] == z[j]
      {
        assert y[i + 1..][j - i - 1] == z[i + 1..][j - i - 1];
      }
      SumSame(v[i], y, z, i + 1, n);
    }
  }

  // ---- in place ----

  ghost function Row(m: array2<real>, i: nat): (r: seq<real>)
    requires i < m.Length0
    reads m
    ensures |r| == m.Length1
  {
    seq(m.Length1, j requires 0 <= j < m.Length1 reads m => m[i, j])
  }

  ghost function View(m: array2<real>): (v: Matrix)
    reads m
    ensures |v| == m.Length0 && forall i :: 0 <= i < m.Length0 ==> v[i] == Row(m, i)
  {
    seq(m.Length0, i requires 0 <= i < m.Length0 reads m => Row(m, i))
  }

  ghost predicate Square(m: array2<real>, n: nat) {
    m.Length0 == n && m.Length1 == n + 1
  }

  method FindPivot(m: array2<real>, n: nat, k: nat) returns (best: nat)
    requires Square(m, n) && k < n
    ensures best == PivotRow(View(m), n, k, k, k + 1) && k <= best < n
  {
    best := k;
    var largest := Abs(m[k, k]);
    for i := k + 1 to n
      invariant k <= best < n && largest == Abs(m[best, k])
      invariant PivotRow(View(m), n, k, k, k + 1) == PivotRow(View(m), n, k, best, i)
    {
      var candidate := Abs(m[i, k]);
      if candidate > largest {
        largest := candidate;
        best := i;
      }
    }
  }

  /** Only the columns from `k` on are exchanged; those before are zero in both rows. */
  method SwapRows(m: array2<real>, n: nat, k: nat, r: nat)
    requires Square(m, n) && k < r < n && Cleared(View(m), n, k)
    modifies m
    ensures View(m) == Swap(old(View(m)), k, r)
  {
    for j := k to n + 1
      invariant forall a, b ::
                0 <= a < n && 0 <= b <= n && !(k <= b < j && (a == k || a == r)) ==> m[a, b] == old(m[a, b])
      invariant forall b :: k <= b < j ==> m[k, b] == old(m[r, b]) && m[r, b] == old(m[k, b])
    {
      var temporary := m[k, j];
      m[k, j] := m[r, j];
      m[r, j] := temporary;
    }
    forall a | 0 <= a < n
      ensures View(m)[a] == Swap(old(View(m)), k, r)[a]
    {
      ghost var source := if a == k then r else if a == r then k else a;
      forall b | 0 <= b < k
        ensures m[a, b] == old(m[source, b])
      {
        assert old(View(m))[k][b] == old(View(m))[r][b] == 0.0;
      }
      assert Row(m, a) == old(Row(m, source));
    }
  }

  /** Subtracts the multiple of row `k` that makes entry `(i, k)` zero. */
  method ClearRow(m: array2<real>, n: nat, k: nat, i: nat)
    requires Square(m, n) && k < i < n && m[k, k] != 0.0 && Cleared(View(m), n, k)
    modifies m
    ensures View(m) == Clear(old(View(m)), n, k, i)
  {
    hide Times;
    ghost var row, pivot := Row(m, i), Row(m, k);
    var factor := m[i, k] / m[k, k];
    ghost var target := Minus(row, factor, pivot);
    assert forall j :: 0 <= j < k ==> old(View(m))[k][j] == pivot[j];
    ClearedEntry(row, pivot, k);
    m[i, k] := 0.0;
    for j := k + 1 to n + 1
      invariant forall a, b :: 0 <= a < n && 0 <= b <= n && a != i ==> m[a, b] == old(m[a, b])
      invariant forall b :: 0 <= b < j ==> m[i, b] == target[b]
      invariant forall b :: j <= b <= n ==> m[i, b] == old(m[i, b])
    {
      m[i, j] := m[i, j] - Times(factor, m[k, j]);
    }
    assert Row(m, i) == target;
    forall a | 0 <= a < n && a != i
      ensures Row(m, a) == old(Row(m, a))
    {}
  }

  method Eliminate(m: array2<real>, n: nat, t: Threshold) returns (ok: bool)
    requires Square(m, n) && t.limit > 0.0
    modifies m
    ensures ok == Reduce(old(View(m)), n, 0, t).Some?
    ensures ok ==> View(m) == Reduce(old(View(m)), n, 0, t).value
  {
    hide PivotRow, Cleared, GoodPivots, SameSolutions, Clear, Swap;
    ghost var whole := Reduce(View(m), n, 0, t);
    NothingCleared(View(m), n, t);
    for k := 0 to n
      invariant Reduce(View(m), n, k, t) == whole
      invariant Cleared(View(m), n, k) && GoodPivots(View(m), n, k, t)
    {
      ghost var v := View(m);
      var r := FindPivot(m, n, k);
      if t.Refuses(m[r, k]) {
        return false;
      }
      PivotColumnStep(v, n, k, t, r);
      if r != k {
        SwapRows(m, n, k, r);
      } else {
        SwapSelf(v, k);
      }
      assert View(m) == Swap(v, k, r);
      assert m[k, k] == View(m)[k][k];
      ClearedSwap(v, n, k, r);
      ClearColumn(m, n, k);
    }
    return true;
  }

  lemma NothingCleared(v: Matrix, n: nat, t: Threshold)
    requires Shape(v, n)
    ensures Cleared(v, n, 0) && GoodPivots(v, n, 0, t)
  {}

  lemma ClearedSwap(v: Matrix, n: nat, k: nat, r: nat)
    requires Shape(v, n) && k <= r < n && Cleared(v, n, k)
    ensures var s := Swap(v, k, r); Shape(s, n) && Cleared(s, n, k)
  {}

  lemma SwapSelf(v: Matrix, k: nat)
    requires k < |v|
    ensures Swap(v, k, k) == v
  {}

  method ClearColumn(m: array2<real>, n: nat, k: nat)
    requires Square(m, n) && k < n && m[k, k] != 0.0 && Cleared(View(m), n, k)
    modifies m
    ensures View(m) == ClearBelow(old(View(m)), n, k, k + 1)
  {
    hide Cleared, Minus;
    for i := k + 1 to n
      invariant m[k, k] != 0.0 && Cleared(View(m), n, k)
      invariant ClearBelow(View(m), n, k, i) == ClearBelow(old(View(m)), n, k, k + 1)
    {
      ghost var v := View(m);
      ClearKeepsCleared(v, n, k, i);
      ClearRow(m, n, k, i);
      assert View(m)[k] == v[k];
    }
  }

  lemma ClearKeepsCleared(v: Matrix, n: nat, k: nat, i: nat)
    requires Shape(v, n) && k < i < n && v[k][k] != 0.0 && Cleared(v, n, k)
    ensures Cleared(Clear(v, n, k, i), n, k)
  {
    hide Minus;
    ClearedEntry(v[i], v[k], k);
  }

  method BackSubstitute(m: array2<real>, n: nat, t: Threshold, x: array<real>) returns (ok: bool)
    requires Square(m, n) && x.Length == n && t.limit > 0.0
    modifies x
    ensures ok <==> GoodPivots(View(m), n, n, t)
    ensures ok ==> BackSolved(View(m), x[..], n, 0)
  {
    hide Times, Sum;
    ghost var v := View(m);
    var i := n;
    while i > 0
      invariant 0 <= i <= n && View(m) == v
      invariant BackSolved(v, x[..], n, i)
      invariant forall a :: i <= a < n ==> !t.Refuses(v[a][a])
    {
      i := i - 1;
      ghost var y := x[..];
      var sum := m[i, n];
      NoTerms(v[i], y, i + 1);
      for j := i + 1 to n
        invariant sum == v[i][n] - Sum(v[i], y, i + 1, j) && x[..] == y
      {
        NextTerm(v[i], y, i + 1, j);
        sum := sum - Times(m[i, j], x[j]);
      }
      if t.Refuses(m[i, i]) {
        return false;
      }
      RefusedZero(t, m[i, i]);
      x[i] := sum / m[i, i];
      BackStep(v, y, n, i, x[i]);
      assert x[..] == y[i := x[i]];
    }
    return true;
  }

  lemma NoTerms(u: seq<real>, y: seq<real>, lo: nat)
    requires lo <= |u| && lo <= |y|
    ensures Sum(u, y, lo, lo) == 0.0
  {}

  lemma NextTerm(u: seq<real>, y: seq<real>, lo: nat, j: nat)
    requires lo <= j < |u| && j < |y|
    ensures Sum(u, y, lo, j + 1) == Sum(u, y, lo, j) + Times(u[j], y[j])
  {}

  lemma BackStep(v: Matrix, y: seq<real>, n: nat, i: nat, value: real)
    requires Shape(v, n) && i < n && BackSolved(v, y, n, i + 1) && v[i][i] != 0.0 && value == BackValue(v[i], y, n, i)
    ensures BackSolved(v, y[i := value], n, i)
  {
    forall a | i <= a < n
      ensures BackValue(v[a], y[i := value], n, a) == BackValue(v[a], y, n, a)
    {
      if v[a][a] != 0.0 {
        SumSame(v[a], y, y[i := value], a + 1, n);
      }
    }
  }

  /** `[ A | b ]` as a value. */
  ghost function Augmented(a: array2<real>, b: array<real>, n: nat): (v: Matrix)
    requires a.Length0 == n && a.Length1 == n && b.Length == n
    reads a, b
    ensures Shape(v, n)
  {
    seq(n, i requires 0 <= i < n reads a, b => Row(a, i) + [b[i]])
  }

  /**
   * A returned `x` is the one and only solution of the original system; nothing is returned
   * exactly when the elimination meets a column whose largest pivot is refused.
   */
  method Solve(a: array2<real>, b: array<real>, n: nat, t: Threshold, x: array<real>) returns (ok: bool)
    requires a.Length0 == n && a.Length1 == n && b.Length == n && x.Length == n && t.limit > 0.0 && x != b
    modifies x
    ensures ok <==> Reduce(Augmented(a, b, n), n, 0, t).Some?
    ensures ok ==> forall y :: Solves(Augmented(a, b, n), y, n) <==> y == x[..]
  {
    hide Reduce, Solves, Cleared, GoodPivots, BackSolved;
    var m := new real[n, n + 1];
    for i := 0 to n
      invariant forall k, j :: 0 <= k < i && 0 <= j < n ==> m[k, j] == a[k, j]
      invariant forall k :: 0 <= k < i ==> m[k, n] == b[k]
    {
      for j := 0 to n
        invariant forall k, l :: 0 <= k < i && 0 <= l < n ==> m[k, l] == a[k, l]
        invariant forall l :: 0 <= l < j ==> m[i, l] == a[i, l]
        invariant forall k :: 0 <= k < i ==> m[k, n] == b[k]
      {
        m[i, j] := a[i, j];
      }
      m[i, n] := b[i];
    }
    ghost var v := Augmented(a, b, n);
    assert View(m) == v by {
      forall i | 0 <= i < n
        ensures Row(m, i) == v[i]
      {}
    }
    var reduced := Eliminate(m, n, t);
    if !reduced {
      return false;
    }
    ReducedSolved(v, n, t);
    ok := BackSubstitute(m, n, t, x);
    ReducedUnique(v, n, t, x[..]);
  }

  lemma ReducedSolved(v: Matrix, n: nat, t: Threshold)
    requires Shape(v, n) && t.limit > 0.0 && Reduce(v, n, 0, t).Some?
    ensures GoodPivots(Reduce(v, n, 0, t).value, n, n, t)
  {
    NothingCleared(v, n, t);
    ReduceKeeps(v, n, 0, t);
  }

  lemma ReducedUnique(v: Matrix, n: nat, t: Threshold, x: seq<real>)
    requires Shape(v, n) && t.limit > 0.0 && Reduce(v, n, 0, t).Some? && BackSolved(Reduce(v, n, 0, t).value, x, n, 0)
    ensures forall y :: Solves(v, y, n) <==> y == x
  {
    hide Reduce, Solves, Cleared;
    NothingCleared(v, n, t);
    ReduceKeeps(v, n, 0, t);
    var w := Reduce(v, n, 0, t).value;
    assert forall a :: 0 <= a < n ==> w[a][a] != 0.0;
    forall y
      ensures Solves(v, y, n) <==> y == x
    {
      if |y| == n {
        BackSolvedSolves(w, y, n);
        if BackSolved(w, y, n, 0) {
          BackSolvedUnique(w, y, x, n, 0);
          assert y == y[0..] && x == x[0..];
        }
      } else {
        SolvesLength(v, y, n);
      }
    }
  }

  lemma SolvesLength(v: Matrix, y: seq<real>, n: nat)
    requires Shape(v, n) && |y| != n
    ensures !Solves(v, y, n)
  {}

  /** A system with two different solutions is always refused. */
  lemma AmbiguousRefused(v: Matrix, n: nat, t: Threshold, y: seq<real>, z: seq<real>)
    requires Shape(v, n) && t.limit > 0.0 && Solves(v, y, n) && Solves(v, z, n) && y != z
    ensures Reduce(v, n, 0, t).None?
  {
    NothingCleared(v, n, t);
    ReduceKeeps(v, n, 0, t);
    if Reduce(v, n, 0, t).Some? {
      var w := Reduce(v, n, 0, t).value;
      TwoSolutions(w, y, z, n, t);
    }
  }

  lemma TwoSolutions(w: Matrix, y: seq<real>, z: seq<real>, n: nat, t: Threshold)
    requires Shape(w, n) && t.limit > 0.0 && Cleared(w, n, n) && GoodPivots(w, n, n, t) && Solves(w, y, n)
             && Solves(w, z, n)
    ensures y == z
  {
    BackSolvedSolves(w, y, n);
    BackSolvedSolves(w, z, n);
    BackSolvedUnique(w, y, z, n, 0);
    assert y == y[0..] && z == z[0..];
  }
}
