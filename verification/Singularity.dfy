/** The smallest singular value of a Jacobian by Jacobi rotations of `J'J` in place. */
module Singularity {
  import opened RealMath
  import opened LinearSolve

  const DOF := 6
  const MAX_ITERATIONS := 120
  const TOLERANCE := 0.00000000000001

  // ---- vectors ----

  function Dot(x: seq<real>, y: seq<real>): real
    requires |x| == |y|
  {
    Sum(x, y, 0, |x|)
  }

  function Lin(a: real, x: real, b: real, y: real): real { a * x + b * y }

  /** `a x + b y` */
  function Comb(a: real, x: seq<real>, b: real, y: seq<real>): (r: seq<real>)
    requires |x| == |y|
    ensures |r| == |x|
  {
    seq(|x|, k requires 0 <= k < |x| => Lin(a, x[k], b, y[k]))
  }

  lemma {:induction false} SumSymmetric(x: seq<real>, y: seq<real>, hi: nat)
    requires hi <= |x| && hi <= |y|
    ensures Sum(x, y, 0, hi) == Sum(y, x, 0, hi)
  {
    if hi > 0 {
      SumSymmetric(x, y, hi - 1);
      TimesSymmetric(x[hi - 1], y[hi - 1]);
    }
  }

  lemma TimesSymmetric(a: real, b: real)
    ensures Times(a, b) == Times(b, a)
  {}

  lemma {:induction false} SumComb(a: real, x: seq<real>, b: real, y: seq<real>, z: seq<real>, hi: nat)
    requires |x| == |y| && hi <= |x| && hi <= |z|
    ensures Sum(Comb(a, x, b, y), z, 0, hi) == Lin(a, Sum(x, z, 0, hi), b, Sum(y, z, 0, hi))
  {
    if hi > 0 {
      SumComb(a, x, b, y, z, hi - 1);
      LinTimes(a, x[hi - 1], b, y[hi - 1], z[hi - 1], Sum(x, z, 0, hi - 1), Sum(y, z, 0, hi - 1));
    } else {
      LinZero(a, b);
    }
  }

  lemma LinZero(a: real, b: real)
    ensures Lin(a, 0.0, b, 0.0) == 0.0
  {}

  lemma LinTimes(a: real, x: real, b: real, y: real, z: real, restX: real, restY: real)
    ensures Lin(a, restX, b, restY) + Times(Lin(a, x, b, y), z) == Lin(a, restX + Times(x, z), b, restY + Times(y, z))
  {}

  lemma DotComb(a: real, x: seq<real>, b: real, y: seq<real>, z: seq<real>)
    requires |x| == |y| == |z|
    ensures Dot(Comb(a, x, b, y), z) == Lin(a, Dot(x, z), b, Dot(y, z))
    ensures Dot(z, Comb(a, x, b, y)) == Lin(a, Dot(z, x), b, Dot(z, y))
  {
    SumComb(a, x, b, y, z, |x|);
    SumSymmetric(Comb(a, x, b, y), z, |x|);
    SumSymmetric(x, z, |x|);
    SumSymmetric(y, z, |x|);
  }

  lemma {:induction false} SumSquares(x: seq<real>, hi: nat)
    requires hi <= |x|
    ensures Sum(x, x, 0, hi) >= 0.0
  {
    if hi > 0 {
      SumSquares(x, hi - 1);
      TimesSquare(x[hi - 1]);
    }
  }

  lemma TimesSquare(a: real)
    ensures Times(a, a) >= 0.0
  {}

  // ---- matrices ----

  ghost predicate IsMatrix(v: Matrix, n: nat) {
    |v| == n && forall i :: 0 <= i < n ==> |v[i]| == n
  }

  /** `a` holds the inner products of the vectors `u`. */
  ghost predicate Gram(a: Matrix, u: Matrix, n: nat)
    requires IsMatrix(a, n) && IsMatrix(u, n)
  {
    forall i, j :: 0 <= i < n && 0 <= j < n ==> a[i][j] == Dot(u[i], u[j])
  }

  function Column(u: Matrix, k: nat): (r: seq<real>)
    requires forall i :: 0 <= i < |u| ==> k < |u[i]|
    ensures |r| == |u|
  {
    seq(|u|, i requires 0 <= i < |u| => u[i][k])
  }

  /** The combination of the vectors `u` with coefficients `x`. */
  function Image(u: Matrix, x: seq<real>, n: nat): (r: seq<real>)
    requires IsMatrix(u, n) && |x| == n
    ensures |r| == n
  {
    seq(n, k requires 0 <= k < n => Sum(x, Column(u, k), 0, n))
  }

  /** The columns of a Jacobian; `Image(Columns(J), x)` is `J x`. */
  function Columns(j: Matrix, n: nat): (u: Matrix)
    requires IsMatrix(j, n)
    ensures IsMatrix(u, n)
  {
    seq(n, i requires 0 <= i < n => Column(j, i))
  }

  ghost predicate Symmetric(a: Matrix, n: nat)
    requires IsMatrix(a, n)
  {
    forall i, j :: 0 <= i < n && 0 <= j < n ==> a[i][j] == a[j][i]
  }

  /** Inner products form a symmetric matrix whose diagonal, the squared lengths, is never negative. */
  lemma GramSymmetric(a: Matrix, u: Matrix, n: nat)
    requires IsMatrix(a, n) && IsMatrix(u, n) && Gram(a, u, n)
    ensures Symmetric(a, n) && forall i :: 0 <= i < n ==> a[i][i] >= 0.0
  {
    forall i, j | 0 <= i < n && 0 <= j < n
      ensures a[i][j] == a[j][i] && a[i][i] >= 0.0
    {
      SumSymmetric(u[i], u[j], n);
      SumSquares(u[i], n);
    }
  }

  // ---- one rotation ----

  function PivotP(c: real, s: real, app: real, apq: real, aqq: real): real {
    c * c * app - 2.0 * s * c * apq + s * s * aqq
  }

  function PivotQ(c: real, s: real, app: real, apq: real, aqq: real): real {
    s * s * app + 2.0 * s * c * apq + c * c * aqq
  }

  /** What the rotation leaves at `(p, q)`; the angle is chosen to make it zero. */
  function PivotPQ(c: real, s: real, app: real, apq: real, aqq: real): real {
    s * c * (app - aqq) + (c * c - s * s) * apq
  }

  function RotatedEntry(a: Matrix, n: nat, p: nat, q: nat, c: real, s: real, i: nat, j: nat): real
    requires IsMatrix(a, n) && p < n && q < n && i < n && j < n
  {
    if i == p && j == p then PivotP(c, s, a[p][p], a[p][q], a[q][q])
    else if i == q && j == q then PivotQ(c, s, a[p][p], a[p][q], a[q][q])
    else if (i == p && j == q) || (i == q && j == p) then 0.0
    else if j == p then Lin(c, a[i][p], -s, a[i][q])
    else if j == q then Lin(s, a[i][p], c, a[i][q])
    else if i == p then Lin(c, a[j][p], -s, a[j][q])
    else if i == q then Lin(s, a[j][p], c, a[j][q])
    else a[i][j]
  }

  function Rotated(a: Matrix, n: nat, p: nat, q: nat, c: real, s: real): (r: Matrix)
    requires IsMatrix(a, n) && p < n && q < n
    ensures IsMatrix(r, n)
  {
    seq(n, i requires 0 <= i < n => seq(n, j requires 0 <= j < n => RotatedEntry(a, n, p, q, c, s, i, j)))
  }

  function Turn(u: Matrix, p: nat, q: nat, c: real, s: real, n: nat): (r: Matrix)
    requires IsMatrix(u, n) && p < n && q < n
    ensures IsMatrix(r, n)
  {
    u[p := Comb(c, u[p], -s, u[q])][q := Comb(s, u[p], c, u[q])]
  }

  function TurnCoordinates(x: seq<real>, p: nat, q: nat, c: real, s: real): (r: seq<real>)
    requires p < |x| && q < |x|
    ensures |r| == |x|
  {
    x[p := Lin(c, x[p], -s, x[q])][q := Lin(s, x[p], c, x[q])]
  }

  lemma PivotIdentities(c: real, s: real, app: real, apq: real, aqq: real)
    ensures Lin(c, Lin(c, app, -s, apq), -s, Lin(c, apq, -s, aqq)) == PivotP(c, s, app, apq, aqq)
    ensures Lin(s, Lin(s, app, c, apq), c, Lin(s, apq, c, aqq)) == PivotQ(c, s, app, apq, aqq)
    ensures Lin(c, Lin(s, app, c, apq), -s, Lin(s, apq, c, aqq)) == PivotPQ(c, s, app, apq, aqq)
  {}

  lemma PivotProducts(x: seq<real>, y: seq<real>, c: real, s: real)
    requires |x| == |y|
    ensures var app, apq, aqq := Dot(x, x), Dot(x, y), Dot(y, y);
            var xt, yt := Comb(c, x, -s, y), Comb(s, x, c, y);
            && Dot(xt, xt) == PivotP(c, s, app, apq, aqq) && Dot(yt, yt) == PivotQ(c, s, app, apq, aqq)
            && Dot(xt, yt) == Dot(yt, xt) == PivotPQ(c, s, app, apq, aqq)
  {
    hide Dot, Comb, Lin, PivotP, PivotQ, PivotPQ;
    var xt, yt := Comb(c, x, -s, y), Comb(s, x, c, y);
    DotSymmetric(x, y);
    DotSymmetric(xt, yt);
    DotComb(c, x, -s, y, xt);
    DotComb(s, x, c, y, yt);
    DotComb(c, x, -s, y, yt);
    DotComb(c, x, -s, y, x);
    DotComb(c, x, -s, y, y);
    DotComb(s, x, c, y, x);
    DotComb(s, x, c, y, y);
    PivotIdentities(c, s, Dot(x, x), Dot(x, y), Dot(y, y));
  }

  lemma DotSymmetric(x: seq<real>, y: seq<real>)
    requires |x| == |y|
    ensures Dot(x, y) == Dot(y, x)
  {
    SumSymmetric(x, y, |x|);
  }

  /** Rotating the vectors rotates their inner products the way the code updates the matrix. */
  lemma GramTurn(a: Matrix, u: Matrix, n: nat, p: nat, q: nat, c: real, s: real)
    requires IsMatrix(a, n) && IsMatrix(u, n) && p < q < n && Gram(a, u, n)
    requires PivotPQ(c, s, a[p][p], a[p][q], a[q][q]) == 0.0
    ensures Gram(Rotated(a, n, p, q, c, s), Turn(u, p, q, c, s, n), n)
  {
    hide Dot, Comb, Lin, PivotP, PivotQ, PivotPQ;
    var w, r := Turn(u, p, q, c, s, n), Rotated(a, n, p, q, c, s);
    PivotProducts(u[p], u[q], c, s);
    forall i, j | 0 <= i < n && 0 <= j < n
      ensures r[i][j] == Dot(w[i], w[j])
    {
      if i != p && i != q {
        DotComb(c, u[p], -s, u[q], u[i]);
        DotComb(s, u[p], c, u[q], u[i]);
      }
      if j != p && j != q {
        DotComb(c, u[p], -s, u[q], u[j]);
        DotComb(s, u[p], c, u[q], u[j]);
        DotSymmetric(u[j], u[p]);
        DotSymmetric(u[j], u[q]);
      }
    }
  }

  // ---- sums with two changed terms ----

  function Total(x: seq<real>): real {
    if x == [] then 0.0 else Total(x[..|x| - 1]) + x[|x| - 1]
  }

  lemma {:induction false} TotalUpdate(x: seq<real>, i: nat, v: real)
    requires i < |x|
    ensures Total(x[i := v]) == Total(x) - x[i] + v
  {
    var last := |x| - 1;
    if i == last {
      assert x[i := v][..last] == x[..last];
    } else {
      assert x[i := v][..last] == x[..last][i := v];
      TotalUpdate(x[..last], i, v);
    }
  }

  lemma TwoChanged(x: seq<real>, y: seq<real>, p: nat, q: nat, d: real)
    requires |x| == |y| && p < q < |x| && x[p] + x[q] == y[p] + y[q] + d
    requires forall i :: 0 <= i < |x| && i != p && i != q ==> x[i] == y[i]
    ensures Total(x) == Total(y) + d
  {
    var z := x[p := y[p]];
    TotalUpdate(x, p, y[p]);
    TotalUpdate(z, q, y[q]);
    assert z[q := y[q]] == y;
  }

  lemma {:induction false} TotalSum(x: seq<real>, y: seq<real>, z: seq<real>)
    requires |x| == |y| == |z| && forall i :: 0 <= i < |x| ==> z[i] == x[i] + y[i]
    ensures Total(z) == Total(x) + Total(y)
  {
    if x != [] {
      var last := |x| - 1;
      TotalSum(x[..last], y[..last], z[..last]);
    }
  }

  function Products(x: seq<real>, y: seq<real>): (r: seq<real>)
    requires |x| == |y|
    ensures |r| == |x|
  {
    seq(|x|, k requires 0 <= k < |x| => Times(x[k], y[k]))
  }

  lemma {:induction false} SumIsTotal(x: seq<real>, y: seq<real>, hi: nat)
    requires |x| == |y| && hi <= |x|
    ensures Sum(x, y, 0, hi) == Total(Products(x, y)[..hi])
  {
    if hi > 0 {
      SumIsTotal(x, y, hi - 1);
      assert Products(x, y)[..hi][..hi - 1] == Products(x, y)[..hi - 1];
    }
  }

  lemma DotIsTotal(x: seq<real>, y: seq<real>)
    requires |x| == |y|
    ensures Dot(x, y) == Total(Products(x, y))
  {
    SumIsTotal(x, y, |x|);
    assert Products(x, y)[..|x|] == Products(x, y);
  }

  // ---- the rotation loses nothing ----

  ghost predicate OnCircle(c: real, s: real) { c * c + s * s == 1.0 }

  lemma TurnPair(c: real, s: real, x: real, y: real, u: real, v: real)
    requires OnCircle(c, s)
    ensures Times(Lin(c, x, -s, y), Lin(c, u, -s, v)) + Times(Lin(s, x, c, y), Lin(s, u, c, v)) == Times(x, u)
            + Times(y, v)
  {
    var g := c * c + s * s;
    assert Times(Lin(c, x, -s, y), Lin(c, u, -s, v)) + Times(Lin(s, x, c, y), Lin(s, u, c, v)) == g * (x * u)
        + g * (y * v);
  }

  lemma TurnDot(x: seq<real>, y: seq<real>, p: nat, q: nat, c: real, s: real)
    requires |x| == |y| && p < q < |x| && OnCircle(c, s)
    ensures Dot(TurnCoordinates(x, p, q, c, s), TurnCoordinates(y, p, q, c, s)) == Dot(x, y)
  {
    hide Lin, Times, Total;
    var xt, yt := TurnCoordinates(x, p, q, c, s), TurnCoordinates(y, p, q, c, s);
    TurnPair(c, s, x[p], x[q], y[p], y[q]);
    DotIsTotal(x, y);
    DotIsTotal(xt, yt);
    TwoChanged(Products(xt, yt), Products(x, y), p, q, 0.0);
  }

  /** Turned vectors with turned coefficients combine to the same vector. */
  lemma ImageTurn(u: Matrix, x: seq<real>, n: nat, p: nat, q: nat, c: real, s: real)
    requires IsMatrix(u, n) && |x| == n && p < q < n && OnCircle(c, s)
    ensures Image(Turn(u, p, q, c, s, n), TurnCoordinates(x, p, q, c, s), n) == Image(u, x, n)
  {
    hide Lin, Sum;
    var w, y := Turn(u, p, q, c, s, n), TurnCoordinates(x, p, q, c, s);
    forall k | 0 <= k < n
      ensures Sum(y, Column(w, k), 0, n) == Sum(x, Column(u, k), 0, n)
    {
      assert Column(w, k) == TurnCoordinates(Column(u, k), p, q, c, s);
      TurnDot(x, Column(u, k), p, q, c, s);
    }
  }

  lemma TurnBack(x: seq<real>, p: nat, q: nat, c: real, s: real)
    requires p < q < |x| && OnCircle(c, s)
    ensures TurnCoordinates(TurnCoordinates(x, p, q, c, -s), p, q, c, s) == x
    ensures OnCircle(c, -s)
  {
    hide Lin;
    TurnBackPair(c, s, x[p], x[q]);
  }

  lemma TurnBackPair(c: real, s: real, x: real, y: real)
    requires OnCircle(c, s)
    ensures Lin(c, Lin(c, x, s, y), -s, Lin(-s, x, c, y)) == x
    ensures Lin(s, Lin(c, x, s, y), c, Lin(-s, x, c, y)) == y
    ensures OnCircle(c, -s)
  {
    var g := c * c + s * s;
    assert Lin(c, Lin(c, x, s, y), -s, Lin(-s, x, c, y)) == g * x;
    assert Lin(s, Lin(c, x, s, y), c, Lin(-s, x, c, y)) == g * y;
  }

  /** `y` gives over `u` the vector that `x` gives over `base`, at the same length. */
  ghost predicate SameImage(base: Matrix, x: seq<real>, u: Matrix, y: seq<real>, n: nat)
    requires IsMatrix(base, n) && IsMatrix(u, n)
  {
    |x| == n && |y| == n && Dot(y, y) == Dot(x, x) && Image(u, y, n) == Image(base, x, n)
  }

  /** The vectors `u` are an isometric change of the vectors `base`. */
  ghost predicate Isometric(base: Matrix, u: Matrix, n: nat)
    requires IsMatrix(base, n) && IsMatrix(u, n)
  {
    Covered(base, u, n) && Covered(u, base, n)
  }

  /** Every combination of `base` is one of `u`, at the same length. */
  ghost predicate Covered(base: Matrix, u: Matrix, n: nat)
    requires IsMatrix(base, n) && IsMatrix(u, n)
  {
    forall x: seq<real> {:trigger Vector(x, n)} :: Vector(x, n) ==> exists y: seq<real> :: SameImage(base, x, u, y, n)
  }

  ghost predicate Vector(x: seq<real>, n: nat) { |x| == n }

  lemma IsometricSelf(u: Matrix, n: nat)
    requires IsMatrix(u, n)
    ensures Isometric(u, u, n)
  {
    hide Image, Dot;
    forall x: seq<real> | Vector(x, n)
      ensures SameImage(u, x, u, x, n)
    {}
  }

  lemma CoverOf(base: Matrix, u: Matrix, n: nat, x: seq<real>) returns (y: seq<real>)
    requires IsMatrix(base, n) && IsMatrix(u, n) && Covered(base, u, n) && |x| == n
    ensures SameImage(base, x, u, y, n)
  {
    hide SameImage;
    assert Vector(x, n);
    y :| SameImage(base, x, u, y, n);
  }

  lemma TurnForward(base: Matrix, u: Matrix, n: nat, p: nat, q: nat, c: real, s: real, x: seq<real>)
      returns (y: seq<real>)
    requires IsMatrix(base, n) && IsMatrix(u, n) && p < q < n && OnCircle(c, s) && Covered(base, u, n) && |x| == n
    ensures SameImage(base, x, Turn(u, p, q, c, s, n), y, n)
  {
    hide Image, Dot, TurnCoordinates, Turn, OnCircle, Covered;
    var z := CoverOf(base, u, n, x);
    ImageTurn(u, z, n, p, q, c, s);
    TurnDot(z, z, p, q, c, s);
    y := TurnCoordinates(z, p, q, c, s);
  }

  lemma TurnBackward(base: Matrix, u: Matrix, n: nat, p: nat, q: nat, c: real, s: real, y: seq<real>)
      returns (x: seq<real>)
    requires IsMatrix(base, n) && IsMatrix(u, n) && p < q < n && OnCircle(c, s) && Covered(u, base, n) && |y| == n
    ensures SameImage(Turn(u, p, q, c, s, n), y, base, x, n)
  {
    hide Image, Dot, TurnCoordinates, Turn, OnCircle, Covered;
    var z := TurnCoordinates(y, p, q, c, -s);
    TurnBack(y, p, q, c, s);
    TurnDot(y, y, p, q, c, -s);
    ImageTurn(u, z, n, p, q, c, s);
    x := CoverOf(u, base, n, z);
  }

  lemma IsometricTurn(base: Matrix, u: Matrix, n: nat, p: nat, q: nat, c: real, s: real)
    requires IsMatrix(base, n) && IsMatrix(u, n) && p < q < n && OnCircle(c, s) && Isometric(base, u, n)
    ensures Isometric(base, Turn(u, p, q, c, s, n), n)
  {
    hide SameImage, Turn, OnCircle;
    var w := Turn(u, p, q, c, s, n);
    assert Covered(base, w, n) by {
      forall x: seq<real> | Vector(x, n)
        ensures exists y: seq<real> :: SameImage(base, x, w, y, n)
      {
        var y := TurnForward(base, u, n, p, q, c, s, x);
      }
    }
    assert Covered(w, base, n) by {
      forall y: seq<real> | Vector(y, n)
        ensures exists x: seq<real> :: SameImage(w, y, base, x, n)
      {
        var x := TurnBackward(base, u, n, p, q, c, s, y);
      }
    }
  }

  // ---- the off-diagonal sum of squares ----

  function OffSquare(a: Matrix, n: nat, i: nat, j: nat): real
    requires IsMatrix(a, n) && i < n && j < n
  {
    if i == j then 0.0 else Times(a[i][j], a[i][j])
  }

  function RowSquares(a: Matrix, n: nat, i: nat): (r: seq<real>)
    requires IsMatrix(a, n) && i < n
    ensures |r| == n
  {
    seq(n, j requires 0 <= j < n => OffSquare(a, n, i, j))
  }

  function RowTotals(a: Matrix, n: nat): (r: seq<real>)
    requires IsMatrix(a, n)
    ensures |r| == n
  {
    seq(n, i requires 0 <= i < n => Total(RowSquares(a, n, i)))
  }

  /** Sum of the squares of all entries off the diagonal. */
  function OffDiagonal(a: Matrix, n: nat): real
    requires IsMatrix(a, n)
  {
    Total(RowTotals(a, n))
  }

  function Diagonal(a: Matrix, n: nat): (r: seq<real>)
    requires IsMatrix(a, n)
    ensures |r| == n
  {
    seq(n, i requires 0 <= i < n => a[i][i])
  }

  function Trace(a: Matrix, n: nat): real
    requires IsMatrix(a, n)
  {
    Total(Diagonal(a, n))
  }

  lemma PivotTrace(c: real, s: real, app: real, apq: real, aqq: real)
    requires OnCircle(c, s)
    ensures PivotP(c, s, app, apq, aqq) + PivotQ(c, s, app, apq, aqq) == app + aqq
  {
    var g := c * c + s * s;
    assert PivotP(c, s, app, apq, aqq) + PivotQ(c, s, app, apq, aqq) == g * app + g * aqq;
  }

  lemma RotationKeepsTrace(a: Matrix, n: nat, p: nat, q: nat, c: real, s: real)
    requires IsMatrix(a, n) && p < q < n && OnCircle(c, s)
    ensures Trace(Rotated(a, n, p, q, c, s), n) == Trace(a, n)
  {
    hide PivotP, PivotQ, Total;
    PivotTrace(c, s, a[p][p], a[p][q], a[q][q]);
    TwoChanged(Diagonal(Rotated(a, n, p, q, c, s), n), Diagonal(a, n), p, q, 0.0);
  }

  lemma RowKept(a: Matrix, n: nat, p: nat, q: nat, c: real, s: real, i: nat)
    requires IsMatrix(a, n) && p < q < n && OnCircle(c, s) && i < n && i != p && i != q
    ensures Total(RowSquares(Rotated(a, n, p, q, c, s), n, i)) == Total(RowSquares(a, n, i))
  {
    hide Lin, Times, Total;
    TurnPair(c, s, a[i][p], a[i][q], a[i][p], a[i][q]);
    TwoChanged(RowSquares(Rotated(a, n, p, q, c, s), n, i), RowSquares(a, n, i), p, q, 0.0);
  }

  lemma PivotRows(a: Matrix, n: nat, p: nat, q: nat, c: real, s: real)
    requires IsMatrix(a, n) && p < q < n && OnCircle(c, s) && Symmetric(a, n)
    ensures var r := Rotated(a, n, p, q, c, s);
            Total(RowSquares(a, n, p)) + Total(RowSquares(a, n, q))
            == Total(RowSquares(r, n, p)) + Total(RowSquares(r, n, q)) + 2.0 * Times(a[p][q], a[p][q])
  {
    hide Lin, Times, Total;
    var r := Rotated(a, n, p, q, c, s);
    var before := seq(n, j requires 0 <= j < n => OffSquare(a, n, p, j) + OffSquare(a, n, q, j));
    var after := seq(n, j requires 0 <= j < n => OffSquare(r, n, p, j) + OffSquare(r, n, q, j));
    TotalSum(RowSquares(a, n, p), RowSquares(a, n, q), before);
    TotalSum(RowSquares(r, n, p), RowSquares(r, n, q), after);
    TimesZero(0.0);
    forall j | 0 <= j < n && j != p && j != q
      ensures before[j] == after[j]
    {
      TurnPair(c, s, a[j][p], a[j][q], a[j][p], a[j][q]);
    }
    TwoChanged(before, after, p, q, 2.0 * Times(a[p][q], a[p][q]));
  }

  /** One rotation lowers the off-diagonal sum of squares by exactly twice the square it removes. */
  lemma RotationDescends(a: Matrix, n: nat, p: nat, q: nat, c: real, s: real)
    requires IsMatrix(a, n) && p < q < n && OnCircle(c, s) && Symmetric(a, n)
    ensures OffDiagonal(Rotated(a, n, p, q, c, s), n) == OffDiagonal(a, n) - 2.0 * Times(a[p][q], a[p][q])
  {
    hide Total, Rotated, RowSquares;
    var r := Rotated(a, n, p, q, c, s);
    PivotRows(a, n, p, q, c, s);
    forall i | 0 <= i < n && i != p && i != q
      ensures RowTotals(r, n)[i] == RowTotals(a, n)[i]
    {
      RowKept(a, n, p, q, c, s, i);
    }
    TwoChanged(RowTotals(a, n), RowTotals(r, n), p, q, 2.0 * Times(a[p][q], a[p][q]));
  }

  lemma {:induction false} TotalAtMost(x: seq<real>, bound: real, zero: int)
    requires forall i :: 0 <= i < |x| ==> 0.0 <= x[i] <= bound
    requires 0 <= zero < |x| ==> x[zero] == 0.0
    ensures 0.0 <= Total(x) <= NonZero(|x|, zero) as real * bound
  {
    if x != [] {
      var last := |x| - 1;
      TotalAtMost(x[..last], bound, zero);
      CountBound(NonZero(last, zero), bound);
      assert Total(x) == Total(x[..last]) + x[last];
    }
  }

  /** How many of `n` numbers may be non-zero when the one at `zero`, if any, is zero. */
  function NonZero(n: nat, zero: int): int { if 0 <= zero < n then n - 1 else n }

  lemma CountBound(k: int, bound: real)
    ensures (k + 1) as real * bound == k as real * bound + bound
  {}

  /** No entry off the diagonal exceeds `m` in magnitude. */
  ghost predicate OffBounded(a: Matrix, n: nat, m: real)
    requires IsMatrix(a, n)
  {
    forall i, j :: 0 <= i < n && 0 <= j < n && i != j ==> Abs(a[i][j]) <= m
  }

  lemma SquareBound(x: real, m: real)
    requires Abs(x) <= m
    ensures 0.0 <= Times(x, x) <= Times(m, m)
  {
    SquareMonotone(Abs(x), m);
    assert Abs(x) * Abs(x) == x * x;
  }

  lemma OffDiagonalBound(a: Matrix, m: real)
    requires IsMatrix(a, DOF) && OffBounded(a, DOF, m) && m >= 0.0
    ensures 0.0 <= OffDiagonal(a, DOF) <= 30.0 * Times(m, m)
  {
    hide Times, Total;
    forall i | 0 <= i < DOF
      ensures 0.0 <= Total(RowSquares(a, DOF, i)) <= 5.0 * Times(m, m)
    {
      forall j | 0 <= j < DOF
        ensures 0.0 <= RowSquares(a, DOF, i)[j] <= Times(m, m)
      {
        SquareBound(m, m);
        if j != i {
          SquareBound(a[i][j], m);
        }
      }
      TotalAtMost(RowSquares(a, DOF, i), Times(m, m), i);
    }
    TotalAtMost(RowTotals(a, DOF), 5.0 * Times(m, m), -1);
  }

  /** Rotating the largest entry away takes at least one fifteenth of the sum. */
  lemma RotationContracts(a: Matrix, p: nat, q: nat, c: real, s: real)
    requires IsMatrix(a, DOF) && p < q < DOF && OnCircle(c, s) && Symmetric(a, DOF) && OffBounded(a, DOF, Abs(a[p][q]))
    ensures OffDiagonal(Rotated(a, DOF, p, q, c, s), DOF) <= (14.0 / 15.0) * OffDiagonal(a, DOF)
  {
    hide Rotated, OffDiagonal;
    OffDiagonalBound(a, Abs(a[p][q]));
    RotationDescends(a, DOF, p, q, c, s);
  }

  // ---- the quadratic form ----

  /** The first `k` terms of the combination. */
  function Partial(u: Matrix, x: seq<real>, n: nat, k: nat): (r: seq<real>)
    requires IsMatrix(u, n) && |x| == n && k <= n
    ensures |r| == n
  {
    seq(n, b requires 0 <= b < n => Sum(x, Column(u, b), 0, k))
  }

  function DotsWith(u: Matrix, z: seq<real>, n: nat): (r: seq<real>)
    requires IsMatrix(u, n) && |z| == n
    ensures |r| == n
  {
    seq(n, i requires 0 <= i < n => Dot(u[i], z))
  }

  lemma {:induction false} PartialDot(u: Matrix, x: seq<real>, z: seq<real>, n: nat, k: nat)
    requires IsMatrix(u, n) && |x| == n && |z| == n && k <= n
    ensures Dot(Partial(u, x, n, k), z) == Sum(x, DotsWith(u, z, n), 0, k)
  {
    hide Dot;
    if k > 0 {
      PartialDot(u, x, z, n, k - 1);
      PartialStep(u, x, n, k);
      DotComb(1.0, Partial(u, x, n, k - 1), x[k - 1], u[k - 1], z);
    } else {
      DotOfZeros(Partial(u, x, n, 0), z);
    }
  }

  lemma PartialStep(u: Matrix, x: seq<real>, n: nat, k: nat)
    requires IsMatrix(u, n) && |x| == n && 0 < k <= n
    ensures Partial(u, x, n, k) == Comb(1.0, Partial(u, x, n, k - 1), x[k - 1], u[k - 1])
  {
    hide Times, Lin;
    forall b | 0 <= b < n
      ensures Partial(u, x, n, k)[b] == Comb(1.0, Partial(u, x, n, k - 1), x[k - 1], u[k - 1])[b]
    {
      LinOne(Sum(x, Column(u, b), 0, k - 1), x[k - 1], u[k - 1][b]);
    }
  }

  lemma LinOne(rest: real, x: real, y: real)
    ensures Lin(1.0, rest, x, y) == rest + Times(x, y)
  {}

  lemma DotOfZeros(x: seq<real>, z: seq<real>)
    requires |x| == |z| && forall k :: 0 <= k < |x| ==> x[k] == 0.0
    ensures Dot(x, z) == 0.0
  {
    SumZero(x, z, |x|);
  }

  lemma ImageDot(u: Matrix, x: seq<real>, z: seq<real>, n: nat)
    requires IsMatrix(u, n) && |x| == n && |z| == n
    ensures Dot(Image(u, x, n), z) == Sum(x, DotsWith(u, z, n), 0, n)
  {
    PartialDot(u, x, z, n, n);
    assert Partial(u, x, n, n) == Image(u, x, n);
  }

  function RowForms(a: Matrix, x: seq<real>, n: nat): (r: seq<real>)
    requires IsMatrix(a, n) && |x| == n
    ensures |r| == n
  {
    seq(n, i requires 0 <= i < n => Sum(x, a[i], 0, n))
  }

  /** `x' a x` */
  function Form(a: Matrix, x: seq<real>, n: nat): real
    requires IsMatrix(a, n) && |x| == n
  {
    Sum(x, RowForms(a, x, n), 0, n)
  }

  /** The squared length of a combination is the quadratic form of the inner products. */
  lemma FormIsLength(a: Matrix, u: Matrix, x: seq<real>, n: nat)
    requires IsMatrix(a, n) && IsMatrix(u, n) && |x| == n && Gram(a, u, n)
    ensures Dot(Image(u, x, n), Image(u, x, n)) == Form(a, x, n)
  {
    hide Dot, Image, Sum;
    var z := Image(u, x, n);
    ImageDot(u, x, z, n);
    forall i | 0 <= i < n
      ensures DotsWith(u, z, n)[i] == RowForms(a, x, n)[i]
    {
      ImageDot(u, x, u[i], n);
      DotSymmetric(z, u[i]);
      forall j | 0 <= j < n
        ensures DotsWith(u, u[i], n)[j] == a[i][j]
      {
        DotSymmetric(u[i], u[j]);
      }
      assert DotsWith(u, u[i], n) == a[i];
    }
    assert DotsWith(u, z, n) == RowForms(a, x, n);
  }

  ghost predicate DiagonalAtLeast(a: Matrix, n: nat, low: real)
    requires IsMatrix(a, n)
  {
    forall i :: 0 <= i < n ==> a[i][i] >= low
  }

  function Half(m: real, v: real): real { (m / 2.0) * v }

  lemma CrossTerm(x: real, y: real, a: real, m: real)
    requires Abs(a) <= m
    ensures Times(x, Times(y, a)) >= -Half(m, Times(x, x) + Times(y, y))
  {
    hide Slack, Times, Half;
    var p, q := Slack(m - a, x - y), Slack(m + a, x + y);
    NonNegative(m - a, x - y);
    NonNegative(m + a, x + y);
    CrossIdentity(x, y, a, m);
  }

  function Slack(k: real, x: real): real { k * x * x }

  lemma CrossIdentity(x: real, y: real, a: real, m: real)
    ensures Slack(m - a, x - y) + Slack(m + a, x + y)
            == 4.0 * (Times(x, Times(y, a)) + Half(m, Times(x, x) + Times(y, y)))
  {}

  lemma NonNegative(k: real, x: real)
    requires k >= 0.0
    ensures Slack(k, x) >= 0.0
  {}

  lemma SquareTerm(x: real, a: real, low: real)
    requires a >= low
    ensures Times(x, Times(x, a)) >= Times(low, Times(x, x))
  {
    NonNegative(a - low, x);
    assert x * (x * a) - low * (x * x) == Slack(a - low, x);
  }

  lemma TimesAdd(x: real, a: real, b: real)
    ensures Times(x, a + b) == Times(x, a) + Times(x, b)
  {}

  /** What entries of size `m` can take away: `m/2` for each of `k` squares `xx` and for the squares in `rest`. */
  function Loss(m: real, k: real, xx: real, rest: real): real { Half(m, k * xx + rest) }

  lemma LossStep(m: real, k: real, xx: real, rest: real, yy: real)
    ensures Loss(m, k - 1.0, xx, rest) + Half(m, xx + yy) == Loss(m, k, xx, rest + yy)
    ensures xx == yy ==> Loss(m, k - 1.0, xx, rest) + Times(m, xx) == Loss(m, k, xx, rest + yy)
    ensures Loss(m, 0.0, xx, 0.0) == 0.0
  {}

  /** Contribution of the first `k` columns of row `i`. */
  lemma {:induction false} RowLower(a: Matrix, x: seq<real>, n: nat, i: nat, k: nat, low: real, m: real)
    requires IsMatrix(a, n) && |x| == n && i < n && k <= n
    requires OffBounded(a, n, m) && DiagonalAtLeast(a, n, low)
    ensures Times(x[i], Sum(x, a[i], 0, k))
            >= (if i < k then Times(low, Times(x[i], x[i])) + Times(m, Times(x[i], x[i])) else 0.0)
               - Loss(m, k as real, Times(x[i], x[i]), Sum(x, x, 0, k))
  {
    hide Times, Loss, Half;
    LossStep(m, k as real, Times(x[i], x[i]), 0.0, 0.0);
    if k > 0 {
      RowLower(a, x, n, i, k - 1, low, m);
      TimesAdd(x[i], Sum(x, a[i], 0, k - 1), Times(x[k - 1], a[i][k - 1]));
      LossStep(m, k as real, Times(x[i], x[i]), Sum(x, x, 0, k - 1), Times(x[k - 1], x[k - 1]));
      if i == k - 1 {
        SquareTerm(x[i], a[i][i], low);
      } else {
        CrossTerm(x[i], x[k - 1], a[i][k - 1], m);
      }
    } else {
      TimesZero(x[i]);
    }
  }

  /** Contribution of the first `k` rows. */
  lemma {:induction false} FormLower(a: Matrix, x: seq<real>, n: nat, k: nat, low: real, m: real)
    requires IsMatrix(a, n) && |x| == n && k <= n && OffBounded(a, n, m) && DiagonalAtLeast(a, n, low)
    ensures Sum(x, RowForms(a, x, n), 0, k)
            >= FormBound(low, m, n as real, k as real, Sum(x, x, 0, k), Dot(x, x))
  {
    hide Times, Dot, Loss, FormBound;
    if k > 0 {
      FormLower(a, x, n, k - 1, low, m);
      RowLower(a, x, n, k - 1, n, low, m);
      WholeDot(x);
      FormStep(low, m, n as real, k as real, Sum(x, x, 0, k - 1), Times(x[k - 1], x[k - 1]), Dot(x, x));
    } else {
      FormStep(low, m, n as real, 0.0, 0.0, 0.0, Dot(x, x));
    }
  }

  function FormBound(low: real, m: real, n: real, k: real, part: real, whole: real): real {
    (low + m) * part - (m / 2.0) * (n * part + k * whole)
  }

  lemma FormStep(low: real, m: real, n: real, k: real, part: real, xx: real, whole: real)
    ensures FormBound(low, m, n, k - 1.0, part, whole) + Times(low, xx) + Times(m, xx) - Loss(m, n, xx, whole)
         == FormBound(low, m, n, k, part + xx, whole)
    ensures FormBound(low, m, n, 0.0, 0.0, whole) == 0.0
  {}

  lemma WholeDot(x: seq<real>)
    ensures Dot(x, x) == Sum(x, x, 0, |x|)
  {}

  /** A nearly diagonal form is bounded below by its smallest diagonal entry. */
  lemma FormAtLeast(a: Matrix, x: seq<real>, n: nat, low: real, m: real)
    requires IsMatrix(a, n) && |x| == n && OffBounded(a, n, m) && DiagonalAtLeast(a, n, low) && Dot(x, x) == 1.0
    ensures Form(a, x, n) >= low - (n as real - 1.0) * m
  {
    hide FormBound;
    FormLower(a, x, n, n, low, m);
    WholeDot(x);
    UnitBound(low, m, n as real);
  }

  lemma UnitBound(low: real, m: real, n: real)
    ensures FormBound(low, m, n, n, 1.0, 1.0) == low - (n - 1.0) * m
  {}

  // ---- the angle ----

  function Angle(m: MathLib, app: real, apq: real, aqq: real): real {
    0.5 * m.atan2(2.0 * apq, aqq - app)
  }

  lemma CrossProducts(r: real, ct: real, st: real, x: real, y: real)
    requires r * ct == x && r * st == y
    ensures ct * y == st * x
  {}

  lemma HalfAngle(c: real, s: real, ct: real, st: real, app: real, apq: real, aqq: real)
    requires st == 2.0 * (s * c) && ct == c * c - s * s && ct * (2.0 * apq) == st * (aqq - app)
    ensures PivotPQ(c, s, app, apq, aqq) == 0.0
  {
    assert PivotPQ(c, s, app, apq, aqq) == 0.5 * (ct * (2.0 * apq) - st * (aqq - app));
  }

  /** The chosen angle makes the pivot entry vanish. */
  lemma AngleAnnihilates(m: MathLib, app: real, apq: real, aqq: real)
    requires m.SqrtLaw() && m.CircleLaw() && m.DoubleAngleLaw() && m.Atan2Law() && apq != 0.0
    ensures var phi := Angle(m, app, apq, aqq);
            OnCircle(m.cos(phi), m.sin(phi)) && PivotPQ(m.cos(phi), m.sin(phi), app, apq, aqq) == 0.0
  {
    hide PivotPQ, OnCircle, MathLib.SqrtLaw, MathLib.CircleLaw, MathLib.DoubleAngleLaw, MathLib.Atan2Law;
    var theta := m.atan2(2.0 * apq, aqq - app);
    var r, ct, st := AngleOf(m, 2.0 * apq, aqq - app);
    CrossProducts(r, ct, st, aqq - app, 2.0 * apq);
    var c, s := HalfAngles(m, Angle(m, app, apq, aqq), theta);
    HalfAngle(c, s, ct, st, app, apq, aqq);
  }

  lemma AngleOf(m: MathLib, y: real, x: real) returns (r: real, ct: real, st: real)
    requires m.Atan2Law() && (y != 0.0 || x != 0.0)
    ensures var theta := m.atan2(y, x); ct == m.cos(theta) && st == m.sin(theta)
    ensures r * ct == x && r * st == y
  {
    var theta := m.atan2(y, x);
    r, ct, st := m.sqrt(x * x + y * y), m.cos(theta), m.sin(theta);
  }

  lemma HalfAngles(m: MathLib, phi: real, theta: real) returns (c: real, s: real)
    requires m.CircleLaw() && m.DoubleAngleLaw() && phi == 0.5 * theta
    ensures c == m.cos(phi) && s == m.sin(phi) && OnCircle(c, s)
    ensures m.sin(theta) == 2.0 * (s * c) && m.cos(theta) == c * c - s * s
  {
    c, s := m.cos(phi), m.sin(phi);
    assert 2.0 * phi == theta;
  }

  // ---- in place ----

  method FormNormal(j: array2<real>, a: array2<real>)
    requires j.Length0 == DOF && j.Length1 == DOF && a.Length0 == DOF && a.Length1 == DOF && a != j
    modifies a
    ensures Gram(View(a), Columns(View(j), DOF), DOF)
  {
    hide Times, Sum;
    ghost var u := Columns(View(j), DOF);
    for row := 0 to DOF
      invariant forall i, k :: 0 <= i < row && 0 <= k < DOF ==> a[i, k] == Dot(u[i], u[k])
    {
      for column := 0 to DOF
        invariant forall i, k :: 0 <= i < row && 0 <= k < DOF ==> a[i, k] == Dot(u[i], u[k])
        invariant forall k :: 0 <= k < column ==> a[row, k] == Dot(u[row], u[k])
      {
        a[row, column] := 0.0;
        NoTerms(u[row], u[column], 0);
        for k := 0 to DOF
          invariant forall i, l :: 0 <= i < row && 0 <= l < DOF ==> a[i, l] == Dot(u[i], u[l])
          invariant forall l :: 0 <= l < column ==> a[row, l] == Dot(u[row], u[l])
          invariant a[row, column] == Sum(u[row], u[column], 0, k)
        {
          NextTerm(u[row], u[column], 0, k);
          a[row, column] := a[row, column] + Times(j[k, row], j[k, column]);
        }
      }
    }
  }

  /** The largest entry above the diagonal. */
  method FindLargest(a: array2<real>) returns (p: nat, q: nat, largest: real)
    requires a.Length0 == DOF && a.Length1 == DOF
    ensures p < q < DOF && largest == Abs(a[p, q])
    ensures forall i, j :: 0 <= i < j < DOF ==> Abs(a[i, j]) <= largest
  {
    p, q := 0, 1;
    largest := Abs(a[p, q]);
    for row := 0 to DOF
      invariant p < q < DOF && largest == Abs(a[p, q])
      invariant forall i, j :: 0 <= i < row && i < j < DOF ==> Abs(a[i, j]) <= largest
    {
      for column := row + 1 to DOF
        invariant p < q < DOF && largest == Abs(a[p, q])
        invariant forall i, j :: 0 <= i < row && i < j < DOF ==> Abs(a[i, j]) <= largest
        invariant forall j :: row < j < column ==> Abs(a[row, j]) <= largest
      {
        var value := Abs(a[row, column]);
        if value > largest {
          largest, p, q := value, row, column;
        }
      }
    }
  }

  ghost predicate Outside(p: nat, q: nat, i: nat) { i != p && i != q }

  /** The entries in which index `k` meets the pivot pair. */
  ghost predicate Meets(p: nat, q: nat, k: nat, i: nat, j: nat) {
    (i == k && !Outside(p, q, j)) || (j == k && !Outside(p, q, i))
  }

  method RotateIndex(a: array2<real>, ghost v: Matrix, p: nat, q: nat, c: real, s: real, k: nat)
    requires a.Length0 == DOF && a.Length1 == DOF && p < q < DOF && k < DOF && Outside(p, q, k) && IsMatrix(v, DOF)
    requires a[k, p] == v[k][p] && a[k, q] == v[k][q]
    modifies a
    ensures forall i, j :: 0 <= i < DOF && 0 <= j < DOF ==>
              a[i, j] == if Meets(p, q, k, i, j) then RotatedEntry(v, DOF, p, q, c, s, i, j) else old(a[i, j])
  {
    hide Lin, PivotP, PivotQ;
    var akp, akq := a[k, p], a[k, q];
    a[k, p] := Lin(c, akp, -s, akq);
    a[p, k] := a[k, p];
    a[k, q] := Lin(s, akp, c, akq);
    a[q, k] := a[k, q];
  }

  ghost predicate MetBelow(p: nat, q: nat, k: nat, i: nat, j: nat) {
    (i < k && Outside(p, q, i) && !Outside(p, q, j)) || (j < k && Outside(p, q, j) && !Outside(p, q, i))
  }

  /** The rows and columns that meet the pivot pair, entry by entry. */
  method RotateOthers(a: array2<real>, p: nat, q: nat, c: real, s: real)
    requires a.Length0 == DOF && a.Length1 == DOF && p < q < DOF
    modifies a
    ensures forall i, j :: 0 <= i < DOF && 0 <= j < DOF ==>
              a[i, j] == if MetBelow(p, q, DOF, i, j) then RotatedEntry(old(View(a)), DOF, p, q, c, s, i, j)
                  else old(a[i, j])
  {
    hide RotatedEntry;
    ghost var v := View(a);
    for k := 0 to DOF
      invariant forall i, j :: 0 <= i < DOF && 0 <= j < DOF ==>
                  a[i, j] == if MetBelow(p, q, k, i, j) then RotatedEntry(v, DOF, p, q, c, s, i, j) else v[i][j]
    {
      if k == p || k == q {
        continue;
      }
      RotateIndex(a, v, p, q, c, s, k);
    }
  }

  method Rotate(a: array2<real>, p: nat, q: nat, c: real, s: real)
    requires a.Length0 == DOF && a.Length1 == DOF && p < q < DOF
    modifies a
    ensures View(a) == Rotated(old(View(a)), DOF, p, q, c, s)
  {
    hide Lin, PivotP, PivotQ;
    ghost var v := View(a);
    var app, aqq, apq := a[p, p], a[q, q], a[p, q];
    RotateOthers(a, p, q, c, s);
    UntouchedEntries(v, p, q, c, s);
    a[p, p] := PivotP(c, s, app, apq, aqq);
    a[q, q] := PivotQ(c, s, app, apq, aqq);
    a[p, q] := 0.0;
    a[q, p] := 0.0;
    RotatedView(a, v, p, q, c, s);
  }

  lemma UntouchedEntries(v: Matrix, p: nat, q: nat, c: real, s: real)
    requires IsMatrix(v, DOF) && p < q < DOF
    ensures forall i, j :: 0 <= i < DOF && 0 <= j < DOF && Outside(p, q, i) && Outside(p, q, j) ==>
              RotatedEntry(v, DOF, p, q, c, s, i, j) == v[i][j]
  {}

  lemma RotatedView(a: array2<real>, v: Matrix, p: nat, q: nat, c: real, s: real)
    requires a.Length0 == DOF && a.Length1 == DOF && IsMatrix(v, DOF) && p < q < DOF
    requires forall i, j :: 0 <= i < DOF && 0 <= j < DOF ==> a[i, j] == RotatedEntry(v, DOF, p, q, c, s, i, j)
    ensures View(a) == Rotated(v, DOF, p, q, c, s)
  {
    hide RotatedEntry;
    forall i | 0 <= i < DOF
      ensures View(a)[i] == Rotated(v, DOF, p, q, c, s)[i]
    {}
  }

  /** `(14/15)^k` */
  function Contraction(k: nat): (r: real)
    ensures 0.0 < r <= 1.0
  {
    if k == 0 then 1.0 else (14.0 / 15.0) * Contraction(k - 1)
  }

  /** What every iteration keeps: an orthogonal similarity of `J'J` with a shrinking off-diagonal part. */
  ghost predicate Similar(base: Matrix, a: Matrix, u: Matrix, start: Matrix, iterations: nat)
    requires IsMatrix(base, DOF) && IsMatrix(a, DOF) && IsMatrix(u, DOF) && IsMatrix(start, DOF)
  {
    && Gram(a, u, DOF) && Isometric(base, u, DOF)
    && Trace(a, DOF) == Trace(start, DOF)
    && OffDiagonal(a, DOF) <= Contraction(iterations) * OffDiagonal(start, DOF)
  }

  lemma SimilarStep(base: Matrix, a: Matrix, u: Matrix, start: Matrix, iterations: nat, p: nat, q: nat, c: real,
      s: real)
    requires IsMatrix(base, DOF) && IsMatrix(a, DOF) && IsMatrix(u, DOF) && IsMatrix(start, DOF)
    requires Similar(base, a, u, start, iterations) && p < q < DOF && OnCircle(c, s)
    requires PivotPQ(c, s, a[p][p], a[p][q], a[q][q]) == 0.0 && OffBounded(a, DOF, Abs(a[p][q]))
    ensures Similar(base, Rotated(a, DOF, p, q, c, s), Turn(u, p, q, c, s, DOF), start, iterations + 1)
  {
    hide Gram, Isometric, Trace, OffDiagonal, Rotated, Turn, PivotPQ, OnCircle;
    GramSymmetric(a, u, DOF);
    GramTurn(a, u, DOF, p, q, c, s);
    IsometricTurn(base, u, DOF, p, q, c, s);
    RotationKeepsTrace(a, DOF, p, q, c, s);
    RotationContracts(a, p, q, c, s);
    ContractionStep(iterations, OffDiagonal(a, DOF), OffDiagonal(start, DOF));
  }

  lemma ContractionStep(k: nat, now: real, start: real)
    requires now <= Contraction(k) * start
    ensures (14.0 / 15.0) * now <= Contraction(k + 1) * start
  {
    ScaleLe(14.0 / 15.0, now, Contraction(k) * start);
    assert (14.0 / 15.0) * (Contraction(k) * start) == Contraction(k + 1) * start;
  }

  lemma LargestBounds(a: Matrix, largest: real)
    requires IsMatrix(a, DOF) && Symmetric(a, DOF) && forall i, j :: 0 <= i < j < DOF ==> Abs(a[i][j]) <= largest
    ensures OffBounded(a, DOF, largest)
  {
    forall i, j | 0 <= i < DOF && 0 <= j < DOF && i != j
      ensures Abs(a[i][j]) <= largest
    {
      assert a[i][j] == a[j][i];
    }
  }

  lemma EntryInOffDiagonal(a: Matrix, p: nat, q: nat)
    requires IsMatrix(a, DOF) && Symmetric(a, DOF) && p < q < DOF
    ensures 2.0 * Times(a[p][q], a[p][q]) <= OffDiagonal(a, DOF)
  {
    var r := Rotated(a, DOF, p, q, 1.0, 0.0);
    RotationDescends(a, DOF, p, q, 1.0, 0.0);
    OffDiagonalNonNegative(r);
  }

  lemma OffDiagonalNonNegative(a: Matrix)
    requires IsMatrix(a, DOF)
    ensures OffDiagonal(a, DOF) >= 0.0
  {
    hide Times;
    forall i | 0 <= i < DOF
      ensures 0.0 <= Total(RowSquares(a, DOF, i))
    {
      forall j | 0 <= j < DOF
        ensures 0.0 <= RowSquares(a, DOF, i)[j]
      {
        TimesSquare(a[i][j]);
      }
      TotalNonNegative(RowSquares(a, DOF, i));
    }
    TotalNonNegative(RowTotals(a, DOF));
  }

  lemma {:induction false} TotalNonNegative(x: seq<real>)
    requires forall i :: 0 <= i < |x| ==> 0.0 <= x[i]
    ensures 0.0 <= Total(x)
  {
    if x != [] {
      TotalNonNegative(x[..|x| - 1]);
    }
  }

  /** Every entry is bounded by the root of half the off-diagonal sum. */
  lemma RootBounds(m: MathLib, a: Matrix) returns (b: real)
    requires m.SqrtLaw() && IsMatrix(a, DOF) && Symmetric(a, DOF)
    ensures b >= 0.0 && 2.0 * Times(b, b) == OffDiagonal(a, DOF) && OffBounded(a, DOF, b)
  {
    hide OffDiagonal;
    OffDiagonalNonNegative(a);
    b := m.sqrt(OffDiagonal(a, DOF) / 2.0);
    forall i, j | 0 <= i < DOF && 0 <= j < DOF && i != j
      ensures Abs(a[i][j]) <= b
    {
      EntryInOffDiagonal(a, if i < j then i else j, if i < j then j else i);
      RootOfSquare(a[i][j], b, OffDiagonal(a, DOF) / 2.0);
    }
  }

  lemma RootOfSquare(x: real, b: real, half: real)
    requires b >= 0.0 && b * b == half && Times(x, x) <= half
    ensures Abs(x) <= b
  {
    assert Abs(x) * Abs(x) == x * x;
    SquareMonotone(Abs(x), b);
  }

  // ---- the smallest singular value ----

  /** `J x` */
  function Apply(j: Matrix, x: seq<real>): (r: seq<real>)
    requires IsMatrix(j, |x|)
    ensures |r| == |x|
  {
    seq(|x|, k requires 0 <= k < |x| => Dot(j[k], x))
  }

  /** Squared length of `J x`. */
  function Stretch(j: Matrix, x: seq<real>): real
    requires IsMatrix(j, |x|)
  {
    Dot(Apply(j, x), Apply(j, x))
  }

  lemma ImageIsApply(j: Matrix, x: seq<real>, n: nat)
    requires IsMatrix(j, n) && |x| == n
    ensures Image(Columns(j, n), x, n) == Apply(j, x)
  {
    forall k | 0 <= k < n
      ensures Sum(x, Column(Columns(j, n), k), 0, n) == Dot(j[k], x)
    {
      assert Column(Columns(j, n), k) == j[k];
      SumSymmetric(x, j[k], n);
    }
  }

  ghost predicate IsUnitVector(x: seq<real>) { |x| == DOF && Dot(x, x) == 1.0 }

  /** `sigma` is the stretch of some unit vector, and no unit vector is stretched less, up to `5 b`. */
  ghost predicate SmallestStretch(j: Matrix, sigma: real, b: real)
    requires IsMatrix(j, DOF)
  {
    && sigma >= 0.0
    && (exists x :: IsUnitVector(x) && Stretch(j, x) == Times(sigma, sigma))
    && (forall x :: IsUnitVector(x) ==> Stretch(j, x) >= Times(sigma, sigma) - 5.0 * b)
  }

  function Basis(n: nat, i: nat): (e: seq<real>)
    ensures |e| == n
  {
    seq(n, k requires 0 <= k < n => if k == i then 1.0 else 0.0)
  }

  lemma {:induction false} SumBasis(n: nat, i: nat, y: seq<real>, hi: nat)
    requires i < n && |y| == n && hi <= n
    ensures Sum(Basis(n, i), y, 0, hi) == if i < hi then y[i] else 0.0
  {
    if hi > 0 {
      SumBasis(n, i, y, hi - 1);
    }
  }

  lemma DiagonalIsStretch(base: Matrix, a: Matrix, u: Matrix, i: nat) returns (x: seq<real>)
    requires IsMatrix(base, DOF) && IsMatrix(a, DOF) && IsMatrix(u, DOF) && Gram(a, u, DOF) && Covered(u, base, DOF)
             && i < DOF
    ensures IsUnitVector(x) && Dot(Image(base, x, DOF), Image(base, x, DOF)) == a[i][i]
  {
    hide Covered, Dot, Sum;
    var e := Basis(DOF, i);
    x := CoverOf(u, base, DOF, e);
    SumBasis(DOF, i, e, DOF);
    WholeDot(e);
    forall k | 0 <= k < DOF
      ensures Image(u, e, DOF)[k] == u[i][k]
    {
      SumBasis(DOF, i, Column(u, k), DOF);
    }
    assert Image(u, e, DOF) == u[i];
  }

  lemma StretchAtLeast(base: Matrix, a: Matrix, u: Matrix, low: real, b: real, x: seq<real>)
    requires IsMatrix(base, DOF) && IsMatrix(a, DOF) && IsMatrix(u, DOF) && Gram(a, u, DOF) && Covered(base, u, DOF)
    requires DiagonalAtLeast(a, DOF, low) && OffBounded(a, DOF, b) && IsUnitVector(x)
    ensures Dot(Image(base, x, DOF), Image(base, x, DOF)) >= low - 5.0 * b
  {
    hide Covered, Dot, Sum, Image, Form, Gram, DiagonalAtLeast, OffBounded;
    var y := CoverOf(base, u, DOF, x);
    FormIsLength(a, u, y, DOF);
    FormAtLeast(a, y, DOF, low, b);
  }

  /** What a nearly diagonal similar matrix says about the Jacobian. */
  lemma DiagonalSmallest(j: Matrix, a: Matrix, u: Matrix, sigma: real, b: real, least: nat)
    requires IsMatrix(j, DOF) && IsMatrix(a, DOF) && IsMatrix(u, DOF) && Gram(a, u, DOF)
             && Isometric(Columns(j, DOF), u, DOF)
    requires OffBounded(a, DOF, b) && least < DOF && DiagonalAtLeast(a, DOF, a[least][least])
    requires sigma >= 0.0 && Times(sigma, sigma) == a[least][least]
    ensures SmallestStretch(j, sigma, b)
  {
    hide Covered, Dot, Sum, Image, Gram, DiagonalAtLeast, OffBounded, Apply, Columns;
    var base := Columns(j, DOF);
    var x := DiagonalIsStretch(base, a, u, least);
    ImageIsApply(j, x, DOF);
    forall z | IsUnitVector(z)
      ensures Stretch(j, z) >= Times(sigma, sigma) - 5.0 * b
    {
      ImageIsApply(j, z, DOF);
      StretchAtLeast(base, a, u, a[least][least], b, z);
    }
  }

  /** What the returned value means: the smallest singular value up to the residual of the iteration. */
  ghost predicate IsSigmaMin(j: Matrix, sigma: real)
    requires IsMatrix(j, DOF)
  {
    exists b, start ::
        IsMatrix(start, DOF) && Gram(start, Columns(j, DOF), DOF) && Residual(start, b) && SmallestStretch(j, sigma, b)
  }

  /** How far from diagonal the iteration may stop. */
  ghost predicate Residual(start: Matrix, b: real)
    requires IsMatrix(start, DOF)
  {
    0.0 <= b && (b < TOLERANCE || 2.0 * Times(b, b) <= Contraction(MAX_ITERATIONS) * OffDiagonal(start, DOF))
  }

  method Diagonalize(m: MathLib, a: array2<real>, ghost base: Matrix) returns (ghost u: Matrix, ghost b: real)
    requires m.SqrtLaw() && m.CircleLaw() && m.DoubleAngleLaw() && m.Atan2Law()
    requires a.Length0 == DOF && a.Length1 == DOF && IsMatrix(base, DOF) && Gram(View(a), base, DOF)
    modifies a
    ensures IsMatrix(u, DOF) && Gram(View(a), u, DOF) && Isometric(base, u, DOF)
    ensures Trace(View(a), DOF) == Trace(old(View(a)), DOF)
    ensures OffBounded(View(a), DOF, b) && Residual(old(View(a)), b)
  {
    hide Gram, Isometric, Trace, OffDiagonal, OffBounded, Rotated, Turn, PivotPQ, OnCircle, Symmetric, Contraction;
    ghost var start := View(a);
    u := base;
    StartSimilar(base, start);
    for iteration := 0 to MAX_ITERATIONS
      invariant IsMatrix(u, DOF) && Similar(base, View(a), u, start, iteration)
    {
      ghost var v := View(a);
      GramSymmetric(v, u, DOF);
      var p, q, largest := FindLargest(a);
      LargestBounds(v, largest);
      if largest < TOLERANCE {
        b := largest;
        return;
      }
      var phi := Angle(m, a[p, p], a[p, q], a[q, q]);
      var c, s := m.cos(phi), m.sin(phi);
      AngleAnnihilates(m, a[p, p], a[p, q], a[q, q]);
      SimilarStep(base, v, u, start, iteration, p, q, c, s);
      Rotate(a, p, q, c, s);
      u := Turn(u, p, q, c, s, DOF);
    }
    GramSymmetric(View(a), u, DOF);
    b := RootBounds(m, View(a));
  }

  lemma StartSimilar(base: Matrix, start: Matrix)
    requires IsMatrix(base, DOF) && IsMatrix(start, DOF) && Gram(start, base, DOF)
    ensures Similar(base, start, base, start, 0)
  {
    hide Isometric;
    IsometricSelf(base, DOF);
  }

  method SmallestDiagonal(a: array2<real>) returns (minimum: real, ghost least: nat)
    requires a.Length0 == DOF && a.Length1 == DOF
    ensures least < DOF && minimum == a[least, least]
    ensures forall k :: 0 <= k < DOF ==> minimum <= a[k, k]
  {
    minimum, least := a[0, 0], 0;
    for i := 1 to DOF
      invariant least < DOF && minimum == a[least, least]
      invariant forall k :: 0 <= k < i ==> minimum <= a[k, k]
    {
      if a[i, i] < minimum {
        minimum, least := a[i, i], i;
      }
    }
  }

  /**
   * The returned value is the stretch of some unit vector, hence never below the smallest
   * singular value, and exceeds it by no more than the residual off-diagonal part allows.
   */
  method SigmaMin(m: MathLib, j: array2<real>) returns (sigma: real)
    requires m.SqrtLaw() && m.CircleLaw() && m.DoubleAngleLaw() && m.Atan2Law()
    requires j.Length0 == DOF && j.Length1 == DOF
    ensures IsSigmaMin(View(j), sigma)
  {
    hide Gram, Isometric, OffBounded, Columns, Residual, SmallestStretch, Symmetric;
    var a := new real[DOF, DOF];
    FormNormal(j, a);
    ghost var base, start := Columns(View(j), DOF), View(a);
    ghost var u, b := Diagonalize(m, a, base);
    GramSymmetric(View(a), u, DOF);
    var minimum, least := SmallestDiagonal(a);
    assert View(a)[least][least] == minimum >= 0.0;
    if minimum < 0.0 {
      minimum := 0.0;
    }
    sigma := m.sqrt(minimum);
    RootSquare(m, minimum);
    assert DiagonalAtLeast(View(a), DOF, minimum);
    DiagonalSmallest(View(j), View(a), u, sigma, b, least);
  }

  lemma RootSquare(m: MathLib, x: real)
    requires m.SqrtLaw() && x >= 0.0
    ensures m.sqrt(x) >= 0.0 && Times(m.sqrt(x), m.sqrt(x)) == x
  {}
}
