/** Three-dimensional vectors and their Euclidean distance. */
module Vectors {
  import opened RealMath

  datatype Vec3 = Vec3(x: real, y: real, z: real)

  const Zero3 := Vec3(0.0, 0.0, 0.0)

  function Add(a: Vec3, b: Vec3): Vec3 { Vec3(a.x + b.x, a.y + b.y, a.z + b.z) }

  function Sub(a: Vec3, b: Vec3): Vec3 { Vec3(a.x - b.x, a.y - b.y, a.z - b.z) }

  function Scale(a: Vec3, c: real): Vec3 { Vec3(a.x * c, a.y * c, a.z * c) }

  function Dot(a: Vec3, b: Vec3): real { a.x * b.x + a.y * b.y + a.z * b.z }

  function Cross(a: Vec3, b: Vec3): Vec3 {
    Vec3(a.y * b.z - a.z * b.y, a.z * b.x - a.x * b.z, a.x * b.y - a.y * b.x)
  }

  function Norm(m: MathLib, a: Vec3): real { m.sqrt(Dot(a, a)) }

  function Distance(m: MathLib, a: Vec3, b: Vec3): real { Norm(m, Sub(b, a)) }

  function Mix(a: real, b: real, u: real): real { a + u * (b - a) }

  function Lerp(a: Vec3, b: Vec3, u: real): Vec3 {
    Vec3(Mix(a.x, b.x, u), Mix(a.y, b.y, u), Mix(a.z, b.z, u))
  }

  lemma DotSelf(a: Vec3)
    ensures Dot(a, a) >= 0.0
  {}

  lemma NormSquare(m: MathLib, a: Vec3)
    requires m.SqrtLaw()
    ensures Norm(m, a) >= 0.0 && Norm(m, a) * Norm(m, a) == Dot(a, a)
  {
    DotSelf(a);
  }

  lemma DotAdd(a: Vec3, b: Vec3)
    ensures Dot(Add(a, b), Add(a, b)) == Dot(a, a) + 2.0 * Dot(a, b) + Dot(b, b)
  {}

  /** Lagrange's identity. */
  lemma Lagrange(a: Vec3, b: Vec3)
    ensures Dot(a, a) * Dot(b, b) - Dot(a, b) * Dot(a, b) == Dot(Cross(a, b), Cross(a, b))
  {}

  lemma CauchySchwarz(m: MathLib, a: Vec3, b: Vec3)
    requires m.SqrtLaw()
    ensures Dot(a, b) <= Norm(m, a) * Norm(m, b)
  {
    hide Dot, Norm, Cross;
    NormSquare(m, a);
    NormSquare(m, b);
    Lagrange(a, b);
    DotSelf(Cross(a, b));
    ProductOfSquares(Norm(m, a), Norm(m, b), Dot(a, a), Dot(b, b), Dot(a, b));
  }

  lemma ProductOfSquares(p: real, q: real, pp: real, qq: real, d: real)
    requires p >= 0.0 && q >= 0.0 && p * p == pp && q * q == qq && d * d <= pp * qq
    ensures d <= p * q
  {
    var r := p * q;
    assert r * r == pp * qq;
    if d > r {
      SquareStrict(r, d);
    }
  }

  lemma NormTriangle(m: MathLib, a: Vec3, b: Vec3)
    requires m.SqrtLaw()
    ensures Norm(m, Add(a, b)) <= Norm(m, a) + Norm(m, b)
  {
    hide Dot, Norm, Add;
    NormSquare(m, a);
    NormSquare(m, b);
    NormSquare(m, Add(a, b));
    DotAdd(a, b);
    CauchySchwarz(m, a, b);
    SumOfRoots(Norm(m, Add(a, b)), Norm(m, a), Norm(m, b), Dot(a, b));
  }

  lemma SumOfRoots(r: real, p: real, q: real, d: real)
    requires r >= 0.0 && p >= 0.0 && q >= 0.0 && r * r == p * p + 2.0 * d + q * q && d <= p * q
    ensures r <= p + q
  {
    assert (p + q) * (p + q) == p * p + 2.0 * (p * q) + q * q;
    SquareMonotone(r, p + q);
  }

  lemma NormScale(m: MathLib, a: Vec3, c: real)
    requires m.SqrtLaw() && c >= 0.0
    ensures Norm(m, Scale(a, c)) == c * Norm(m, a)
  {
    hide Norm, Dot;
    NormSquare(m, a);
    NormSquare(m, Scale(a, c));
    DotScale(a, c);
    RootOfScaled(Norm(m, Scale(a, c)), Norm(m, a), c, Dot(a, a));
  }

  lemma DotScale(a: Vec3, c: real)
    ensures Dot(Scale(a, c), Scale(a, c)) == c * c * Dot(a, a)
  {}

  lemma RootOfScaled(r: real, n: real, c: real, nn: real)
    requires r >= 0.0 && n >= 0.0 && c >= 0.0 && n * n == nn && r * r == c * c * nn
    ensures r == c * n
  {
    assert (c * n) * (c * n) == c * c * (n * n);
    SquareInjective(r, c * n);
  }

  lemma DistanceTriangle(m: MathLib, a: Vec3, b: Vec3, c: Vec3)
    requires m.SqrtLaw()
    ensures Distance(m, a, c) <= Distance(m, a, b) + Distance(m, b, c)
  {
    NormTriangle(m, Sub(b, a), Sub(c, b));
    assert Add(Sub(b, a), Sub(c, b)) == Sub(c, a);
  }

  lemma DistanceSymmetric(m: MathLib, a: Vec3, b: Vec3)
    requires m.SqrtLaw()
    ensures Distance(m, a, b) == Distance(m, b, a) && Distance(m, a, b) >= 0.0 && Distance(m, a, a) == 0.0
  {
    hide Norm, Dot;
    NormSquare(m, Sub(b, a));
    NormSquare(m, Sub(a, b));
    DotNegate(a, b);
    SquareInjective(Distance(m, a, b), Distance(m, b, a));
    NormSquare(m, Sub(a, a));
    DotZero(a);
    SquareInjective(Distance(m, a, a), 0.0);
  }

  lemma DotNegate(a: Vec3, b: Vec3)
    ensures Dot(Sub(b, a), Sub(b, a)) == Dot(Sub(a, b), Sub(a, b))
  {}

  lemma DotZero(a: Vec3)
    ensures Dot(Sub(a, a), Sub(a, a)) == 0.0
  {}

  /** Two points of one chord. */
  lemma LerpDistance(m: MathLib, a: Vec3, b: Vec3, u: real, w: real)
    requires m.SqrtLaw() && u <= w
    ensures Distance(m, Lerp(a, b, u), Lerp(a, b, w)) == (w - u) * Distance(m, a, b)
  {
    hide Norm;
    LerpDifference(a, b, u, w);
    NormScale(m, Sub(b, a), w - u);
  }

  lemma LerpDifference(a: Vec3, b: Vec3, u: real, w: real)
    ensures Sub(Lerp(a, b, w), Lerp(a, b, u)) == Scale(Sub(b, a), w - u)
  {}

  /** Interpolating between moved end points moves the result by no more than the end points. */
  lemma LerpPerturbed(m: MathLib, a: Vec3, b: Vec3, c: Vec3, d: Vec3, u: real, bound: real)
    requires m.SqrtLaw() && 0.0 <= u <= 1.0 && Distance(m, a, c) <= bound && Distance(m, b, d) <= bound
    ensures Distance(m, Lerp(a, b, u), Lerp(c, d, u)) <= bound
  {
    hide Norm, Sub, Scale, Add, Lerp;
    var p, q := Scale(Sub(c, a), 1.0 - u), Scale(Sub(d, b), u);
    LerpSplit(a, b, c, d, u);
    NormTriangle(m, p, q);
    NormScale(m, Sub(c, a), 1.0 - u);
    NormScale(m, Sub(d, b), u);
    WeightedBound(u, Norm(m, Sub(c, a)), Norm(m, Sub(d, b)), bound);
  }

  lemma WeightedBound(u: real, p: real, q: real, bound: real)
    requires 0.0 <= u <= 1.0 && p <= bound && q <= bound
    ensures (1.0 - u) * p + u * q <= bound
  {
    var a, b := (1.0 - u) * (bound - p), u * (bound - q);
    assert a >= 0.0 && b >= 0.0;
    assert a + b == bound - ((1.0 - u) * p + u * q);
  }

  lemma LerpSplit(a: Vec3, b: Vec3, c: Vec3, d: Vec3, u: real)
    ensures Sub(Lerp(c, d, u), Lerp(a, b, u)) == Add(Scale(Sub(c, a), 1.0 - u), Scale(Sub(d, b), u))
  {
    hide Mix;
    var p, q := Sub(c, a), Sub(d, b);
    SplitCoordinate(a.x, b.x, c.x, d.x, p.x, q.x, u);
    SplitCoordinate(a.y, b.y, c.y, d.y, p.y, q.y, u);
    SplitCoordinate(a.z, b.z, c.z, d.z, p.z, q.z, u);
  }

  lemma SplitCoordinate(a: real, b: real, c: real, d: real, p: real, q: real, u: real)
    requires p == c - a && q == d - b
    ensures Mix(c, d, u) - Mix(a, b, u) == p * (1.0 - u) + q * u
  {}
}
