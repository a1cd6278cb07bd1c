/** Circles through three points and the waypoints along them. */
module CircularPath {
  import opened RealMath
  import opened Vectors
  import LS = LinearSolve

  const COLLINEAR_EPS := 0.000000000001
  const RADIUS_EPS := 0.000000001
  const ANGLE_EPS := 0.000000000001

  datatype Circle = Circle(center: Vec3, axis: Vec3, e1: Vec3, e2: Vec3, radius: real)

  datatype Option<T> = None | Some(value: T)

  // ---- vector identities ----

  lemma CrossOrthogonal(a: Vec3, b: Vec3)
    ensures Dot(Cross(a, b), a) == 0.0 && Dot(Cross(a, b), b) == 0.0
  {}

  lemma Triple(a: Vec3, b: Vec3, c: Vec3)
    ensures Dot(Cross(a, b), c) == Dot(a, Cross(b, c))
  {}

  lemma DotSymmetric(a: Vec3, b: Vec3)
    ensures Dot(a, b) == Dot(b, a)
  {}

  lemma DotSub(a: Vec3, b: Vec3, c: Vec3)
    ensures Dot(Sub(a, c), b) == Dot(a, b) - Dot(c, b)
  {}

  lemma DotSum(a: Vec3, b: Vec3, c: Vec3)
    ensures Dot(Add(a, c), b) == Dot(a, b) + Dot(c, b)
  {}

  lemma DotScaled(a: Vec3, b: Vec3, k: real)
    ensures Dot(Scale(a, k), b) == k * Dot(a, b)
  {}

  lemma CrossCoordinate(a1: real, a2: real, a3: real, b1: real, b2: real, b3: real, c1: real, c2: real, c3: real,
                        f2: real, f3: real, d: real, e: real)
    requires f2 == b3 * c1 - b1 * c3 && f3 == b1 * c2 - b2 * c1
    requires d == a1 * c1 + a2 * c2 + a3 * c3 && e == a1 * b1 + a2 * b2 + a3 * b3
    ensures a2 * f3 - a3 * f2 == b1 * d - c1 * e
  {}

  lemma DoubleCrossOf(a: Vec3, b: Vec3, c: Vec3, f: Vec3, d: real, e: real)
    requires f.x == b.y * c.z - b.z * c.y && f.y == b.z * c.x - b.x * c.z && f.z == b.x * c.y - b.y * c.x
    requires d == a.x * c.x + a.y * c.y + a.z * c.z && e == a.x * b.x + a.y * b.y + a.z * b.z
    ensures a.y * f.z - a.z * f.y == b.x * d - c.x * e
    ensures a.z * f.x - a.x * f.z == b.y * d - c.y * e
    ensures a.x * f.y - a.y * f.x == b.z * d - c.z * e
  {
    CrossCoordinate(a.x, a.y, a.z, b.x, b.y, b.z, c.x, c.y, c.z, f.y, f.z, d, e);
    CrossCoordinate(a.y, a.z, a.x, b.y, b.z, b.x, c.y, c.z, c.x, f.z, f.x, d, e);
    CrossCoordinate(a.z, a.x, a.y, b.z, b.x, b.y, c.z, c.x, c.y, f.x, f.y, d, e);
  }

  /** The vector triple product. */
  lemma DoubleCross(a: Vec3, b: Vec3, c: Vec3)
    ensures Cross(a, Cross(b, c)) == Sub(Scale(b, Dot(a, c)), Scale(c, Dot(a, b)))
  {
    var f, d, e := Cross(b, c), Dot(a, c), Dot(a, b);
    DoubleCrossOf(a, b, c, f, d, e);
    assert Cross(a, f) == Sub(Scale(b, d), Scale(c, e));
  }

  lemma CrossScaled(a: Vec3, b: Vec3, k: real)
    ensures Cross(a, Scale(b, k)) == Scale(Cross(a, b), k)
  {
    ScaledCoordinate(a.y, b.z, a.z, b.y, k);
    ScaledCoordinate(a.z, b.x, a.x, b.z, k);
    ScaledCoordinate(a.x, b.y, a.y, b.x, k);
    var c := Cross(a, b);
    assert Scale(c, k) == Vec3(c.x * k, c.y * k, c.z * k);
  }

  lemma CrossReversed(a: Vec3, b: Vec3)
    ensures Cross(a, b) == Scale(Cross(b, a), -1.0)
  {}

  lemma CrossZero(a: Vec3)
    ensures Cross(a, Zero3) == Zero3
  {}

  lemma ScaledCoordinate(p: real, q: real, r: real, s: real, k: real)
    ensures p * (q * k) - r * (s * k) == (p * q - r * s) * k
  {}

  // ---- the frame of a circle ----

  /** `e1`, `e2` and `axis` are orthonormal and right-handed. */
  ghost predicate Frame(c: Circle) {
    && c.radius > 0.0
    && Dot(c.axis, c.axis) == 1.0 && Dot(c.e1, c.e1) == 1.0 && Dot(c.e2, c.e2) == 1.0
    && Dot(c.axis, c.e1) == 0.0 && Dot(c.axis, c.e2) == 0.0 && Dot(c.e1, c.e2) == 0.0
    && c.e2 == Cross(c.axis, c.e1)
  }

  /** `p` lies in the plane of the circle and on it. */
  ghost predicate OnCircle(c: Circle, p: Vec3) {
    var w := Sub(p, c.center);
    Dot(w, c.axis) == 0.0 && Dot(w, w) == c.radius * c.radius
  }

  lemma UnitScale(a: Vec3, n: real)
    requires n > 0.0 && n * n == Dot(a, a)
    ensures Dot(Scale(a, 1.0 / n), Scale(a, 1.0 / n)) == 1.0
  {
    DotScale(a, 1.0 / n);
    DivideMultiply(1.0, n);
    UnitProduct(1.0 / n, n, Dot(a, a));
  }

  lemma UnitProduct(k: real, n: real, nn: real)
    requires n * k == 1.0 && n * n == nn
    ensures k * k * nn == 1.0
  {
    assert k * k * (n * n) == (n * k) * (n * k);
  }

  lemma FrameFrom(axis: Vec3, e1: Vec3)
    requires Dot(axis, axis) == 1.0 && Dot(e1, e1) == 1.0 && Dot(axis, e1) == 0.0
    ensures var e2 := Cross(axis, e1); Dot(e2, e2) == 1.0 && Dot(axis, e2) == 0.0 && Dot(e1, e2) == 0.0
  {
    hide Dot, Cross;
    Lagrange(axis, e1);
    CrossOrthogonal(axis, e1);
    DotSymmetric(axis, Cross(axis, e1));
    DotSymmetric(e1, Cross(axis, e1));
  }

  /** A vector orthogonal to `a` and crossing to nothing with it is zero; here: `v` is parallel to `a`. */
  lemma Parallel(a: Vec3, v: Vec3)
    requires Dot(a, a) == 1.0 && Cross(a, v) == Zero3
    ensures v == Scale(a, Dot(a, v))
  {
    hide Dot, Cross;
    DoubleCross(a, a, v);
    CrossZero(a);
    ScaleOne(v);
    assert Sub(Scale(a, Dot(a, v)), v) == Zero3;
    SubZero(Scale(a, Dot(a, v)), v);
  }

  lemma ScaleOne(v: Vec3)
    ensures Scale(v, 1.0) == v
  {}

  lemma SubZero(a: Vec3, b: Vec3)
    requires Sub(a, b) == Zero3
    ensures a == b
  {}

  /** A vector of the plane in the basis `e1`, `e2`. */
  lemma PlaneExpansion(c: Circle, w: Vec3)
    requires Frame(c) && Dot(w, c.axis) == 0.0
    ensures w == Add(Scale(c.e1, Dot(w, c.e1)), Scale(c.e2, Dot(w, c.e2)))
  {
    hide Dot, Cross;
    var x, y := Dot(w, c.e1), Dot(w, c.e2);
    var v := Cross(c.e1, w);
    DotSymmetric(w, c.axis);
    DotSymmetric(w, c.e1);
    DotSymmetric(w, c.e2);
    DoubleCross(c.axis, c.e1, w);
    ScaleZeroSub(c.e1, w);
    Parallel(c.axis, v);
    Triple(c.axis, c.e1, w);
    assert v == Scale(c.axis, y);
    CrossScaled(c.e1, c.axis, y);
    CrossReversed(c.e1, c.axis);
    DoubleCross(c.e1, c.e1, w);
    assert Cross(c.e1, v) == Scale(Cross(c.e1, c.axis), y) && Cross(c.e1, c.axis) == Scale(c.e2, -1.0);
    Recombine(w, c.e1, c.e2, x, y);
  }

  lemma ScaleZeroSub(a: Vec3, b: Vec3)
    ensures Sub(Scale(a, 0.0), Scale(b, 0.0)) == Zero3
  {}

  lemma Recombine(w: Vec3, e1: Vec3, e2: Vec3, x: real, y: real)
    requires Scale(Scale(e2, -1.0), y) == Sub(Scale(e1, x), Scale(w, 1.0))
    ensures w == Add(Scale(e1, x), Scale(e2, y))
  {}

  // ---- points of the circle ----

  function Spoke(c: Circle, co: real, si: real): Vec3 { Add(Scale(c.e1, co), Scale(c.e2, si)) }

  function At(c: Circle, co: real, si: real): Vec3 { Add(c.center, Scale(Spoke(c, co, si), c.radius)) }

  function Sample(m: MathLib, c: Circle, theta: real): Vec3 { At(c, m.cos(theta), m.sin(theta)) }

  lemma SpokeUnit(c: Circle, co: real, si: real)
    requires Frame(c) && co * co + si * si == 1.0
    ensures Dot(Spoke(c, co, si), Spoke(c, co, si)) == 1.0 && Dot(Spoke(c, co, si), c.axis) == 0.0
  {
    hide Dot, Cross, Scale, Add;
    var u, a, b := Spoke(c, co, si), Scale(c.e1, co), Scale(c.e2, si);
    DotAdd(a, b);
    DotScale(c.e1, co);
    DotScale(c.e2, si);
    DotScaled(c.e1, b, co);
    DotSymmetric(c.e1, b);
    DotScaled(c.e2, c.e1, si);
    DotSymmetric(c.e2, c.e1);
    DotSum(a, c.axis, b);
    DotScaled(c.e1, c.axis, co);
    DotScaled(c.e2, c.axis, si);
    DotSymmetric(c.e1, c.axis);
    DotSymmetric(c.e2, c.axis);
  }

  lemma AddSub(a: Vec3, b: Vec3)
    ensures Sub(Add(a, b), a) == b && Add(a, Sub(b, a)) == b
  {}

  /** Every sampled point lies on the circle. */
  lemma SampleOnCircle(m: MathLib, c: Circle, theta: real)
    requires m.CircleLaw() && Frame(c)
    ensures OnCircle(c, Sample(m, c, theta))
  {
    hide Dot, Spoke, Scale, Add, Frame;
    var s, co := SineCosine(m, theta);
    SpokeUnit(c, co, s);
    var u := Spoke(c, co, s);
    AddSub(c.center, Scale(u, c.radius));
    DotScale(u, c.radius);
    DotScaled(u, c.axis, c.radius);
  }

  lemma SineCosine(m: MathLib, theta: real) returns (s: real, c: real)
    requires m.CircleLaw()
    ensures s == m.sin(theta) && c == m.cos(theta) && s * s + c * c == 1.0
  {
    s, c := m.sin(theta), m.cos(theta);
  }

  function AngleOf(m: MathLib, c: Circle, p: Vec3): real {
    var w := Sub(p, c.center);
    m.atan2(Dot(w, c.e2), Dot(w, c.e1))
  }

  lemma RadiusOf(c: Circle, w: Vec3)
    requires Frame(c) && Dot(w, c.axis) == 0.0
    ensures Dot(w, w) == Dot(w, c.e1) * Dot(w, c.e1) + Dot(w, c.e2) * Dot(w, c.e2)
  {
    hide Dot, Cross, Scale, Add;
    var x, y := Dot(w, c.e1), Dot(w, c.e2);
    PlaneExpansion(c, w);
    DotSum(Scale(c.e1, x), w, Scale(c.e2, y));
    DotScaled(c.e1, w, x);
    DotScaled(c.e2, w, y);
    DotSymmetric(c.e1, w);
    DotSymmetric(c.e2, w);
  }

  lemma PolarCoordinates(m: MathLib, x: real, y: real, r: real)
    requires m.SqrtLaw() && m.Atan2Law() && r > 0.0 && x * x + y * y == r * r
    ensures r * m.cos(m.atan2(y, x)) == x && r * m.sin(m.atan2(y, x)) == y
  {
    NotBothZero(x, y, r);
    SquareSum(x, y);
    var root := m.sqrt(x * x + y * y);
    SquareInjective(root, r);
  }

  lemma NotBothZero(x: real, y: real, r: real)
    requires r > 0.0 && x * x + y * y == r * r
    ensures x != 0.0 || y != 0.0
  {
    if x == 0.0 && y == 0.0 {
      var p := PositiveProduct(r, r);
    }
  }

  lemma SquareSum(x: real, y: real)
    ensures x * x + y * y >= 0.0
  {}

  lemma AtCoordinate(center: real, a: real, b: real, co: real, si: real, r: real, x: real, y: real)
    requires r * co == x && r * si == y
    ensures center + (a * co + b * si) * r == center + (a * x + b * y)
  {}

  /** A point of the circle is the sample at its angle. */
  lemma SampleAtAngle(m: MathLib, c: Circle, p: Vec3)
    requires m.SqrtLaw() && m.Atan2Law() && Frame(c) && OnCircle(c, p)
    ensures Sample(m, c, AngleOf(m, c, p)) == p
  {
    hide Dot, Frame, Cross, At, Spoke, Add, Sub, Scale;
    var w := Sub(p, c.center);
    var x, y := Dot(w, c.e1), Dot(w, c.e2);
    RadiusOf(c, w);
    PlaneExpansion(c, w);
    RadiusPositive(c);
    PolarCoordinates(m, x, y, c.radius);
    var theta := m.atan2(y, x);
    SampleCoordinates(c, w, x, y, m.cos(theta), m.sin(theta));
    AddSub(c.center, p);
  }

  lemma RadiusPositive(c: Circle)
    requires Frame(c)
    ensures c.radius > 0.0
  {}

  lemma SampleCoordinates(c: Circle, w: Vec3, x: real, y: real, co: real, si: real)
    requires w == Add(Scale(c.e1, x), Scale(c.e2, y)) && c.radius * co == x && c.radius * si == y
    ensures At(c, co, si) == Add(c.center, w)
  {
    AtCoordinate(c.center.x, c.e1.x, c.e2.x, co, si, c.radius, x, y);
    AtCoordinate(c.center.y, c.e1.y, c.e2.y, co, si, c.radius, x, y);
    AtCoordinate(c.center.z, c.e1.z, c.e2.z, co, si, c.radius, x, y);
  }

  // ---- the fit ----

  function Normal(p1: Vec3, p2: Vec3, p3: Vec3): Vec3 { Cross(Sub(p2, p1), Sub(p3, p1)) }

  function Coefficients(a: Vec3, rhs: real): seq<real> { [a.x, a.y, a.z, rhs] }

  /** The three planes that meet in the centre. */
  function CircleSystem(p1: Vec3, p2: Vec3, p3: Vec3, axis: Vec3): LS.Matrix {
    [Coefficients(Sub(p2, p1), 0.5 * (Dot(p2, p2) - Dot(p1, p1))),
     Coefficients(Sub(p3, p1), 0.5 * (Dot(p3, p3) - Dot(p1, p1))),
     Coefficients(axis, Dot(axis, p1))]
  }

  lemma RowMeans(a: Vec3, rhs: real, x: Vec3)
    ensures LS.Satisfies(Coefficients(a, rhs), [x.x, x.y, x.z], 3) <==> Dot(a, x) == rhs
  {
    var row, y := Coefficients(a, rhs), [x.x, x.y, x.z];
    assert LS.Sum(row, y, 0, 1) == LS.Sum(row, y, 0, 0) + LS.Times(a.x, x.x);
    assert LS.Sum(row, y, 0, 2) == LS.Sum(row, y, 0, 1) + LS.Times(a.y, x.y);
    assert LS.Sum(row, y, 0, 3) == LS.Sum(row, y, 0, 2) + LS.Times(a.z, x.z);
  }

  /** The centre is in the plane of the points and equally far from all of them. */
  ghost predicate Equidistant(c: Vec3, axis: Vec3, p1: Vec3, p2: Vec3, p3: Vec3) {
    var w1, w2, w3 := Sub(p1, c), Sub(p2, c), Sub(p3, c);
    && Dot(w1, axis) == 0.0 && Dot(w2, axis) == 0.0 && Dot(w3, axis) == 0.0
    && Dot(w1, w1) == Dot(w2, w2) == Dot(w3, w3)
  }

  lemma BisectorMeans(p: Vec3, q: Vec3, c: Vec3)
    requires Dot(Sub(q, p), c) == 0.5 * (Dot(q, q) - Dot(p, p))
    ensures Dot(Sub(p, c), Sub(p, c)) == Dot(Sub(q, c), Sub(q, c))
  {
    hide Dot, Sub;
    DotSub(q, c, p);
    SquareOfSub(p, c);
    SquareOfSub(q, c);
  }

  lemma SquareOfSub(p: Vec3, c: Vec3)
    ensures Dot(Sub(p, c), Sub(p, c)) == Dot(p, p) - 2.0 * Dot(p, c) + Dot(c, c)
  {}

  lemma CentreMeans(c: Vec3, axis: Vec3, p1: Vec3, p2: Vec3, p3: Vec3)
    requires Dot(axis, Sub(p2, p1)) == 0.0 && Dot(axis, Sub(p3, p1)) == 0.0
    requires Dot(Sub(p2, p1), c) == 0.5 * (Dot(p2, p2) - Dot(p1, p1))
    requires Dot(Sub(p3, p1), c) == 0.5 * (Dot(p3, p3) - Dot(p1, p1))
    requires Dot(axis, c) == Dot(axis, p1)
    ensures Equidistant(c, axis, p1, p2, p3)
  {
    hide Dot, Sub;
    BisectorMeans(p1, p2, c);
    BisectorMeans(p1, p3, c);
    InPlane(axis, p1, p1, c);
    InPlane(axis, p1, p2, c);
    InPlane(axis, p1, p3, c);
    SubSelf(axis, p1);
  }

  lemma SubSelf(axis: Vec3, p: Vec3)
    ensures Dot(axis, Sub(p, p)) == 0.0
  {}

  lemma InPlane(axis: Vec3, p1: Vec3, p: Vec3, c: Vec3)
    ensures Dot(axis, Sub(p, p1)) == 0.0 && Dot(axis, c) == Dot(axis, p1) ==> Dot(Sub(p, c), axis) == 0.0
  {
    hide Dot, Sub;
    DotSymmetric(axis, Sub(p, p1));
    DotSub(p, axis, p1);
    DotSub(p, axis, c);
    DotSymmetric(axis, c);
    DotSymmetric(axis, p1);
  }

  /** What a successful fit delivers. */
  ghost predicate Fitted(c: Circle, p1: Vec3, p2: Vec3, p3: Vec3) {
    && Frame(c) && c.radius >= RADIUS_EPS
    && OnCircle(c, p1) && OnCircle(c, p2) && OnCircle(c, p3)
    && p1 == At(c, 1.0, 0.0)
  }

  lemma AxisFacts(m: MathLib, p1: Vec3, p2: Vec3, p3: Vec3, norm: real)
    requires norm > 0.0 && norm * norm == Dot(Normal(p1, p2, p3), Normal(p1, p2, p3))
    ensures var axis := Scale(Normal(p1, p2, p3), 1.0 / norm);
            Dot(axis, axis) == 1.0 && Dot(axis, Sub(p2, p1)) == 0.0 && Dot(axis, Sub(p3, p1)) == 0.0
  {
    hide Dot, Cross, Scale, Sub;
    var n := Normal(p1, p2, p3);
    UnitScale(n, norm);
    CrossOrthogonal(Sub(p2, p1), Sub(p3, p1));
    DotScaled(n, Sub(p2, p1), 1.0 / norm);
    DotScaled(n, Sub(p3, p1), 1.0 / norm);
  }

  lemma FitFacts(p1: Vec3, p2: Vec3, p3: Vec3, axis: Vec3, center: Vec3, radius: real)
    requires Dot(axis, axis) == 1.0 && Equidistant(center, axis, p1, p2, p3)
    requires radius >= RADIUS_EPS && radius * radius == Dot(Sub(p1, center), Sub(p1, center))
    ensures var e1 := Scale(Sub(p1, center), 1.0 / radius);
            Fitted(Circle(center, axis, e1, Cross(axis, e1), radius), p1, p2, p3)
  {
    hide Dot, Cross, Scale, Sub;
    var w := Sub(p1, center);
    var e1 := Scale(w, 1.0 / radius);
    UnitScale(w, radius);
    DotScaled(w, axis, 1.0 / radius);
    DotSymmetric(axis, e1);
    FrameFrom(axis, e1);
    FirstPoint(p1, center, e1, Cross(axis, e1), axis, radius);
  }

  lemma FirstPoint(p1: Vec3, center: Vec3, e1: Vec3, e2: Vec3, axis: Vec3, radius: real)
    requires radius > 0.0 && e1 == Scale(Sub(p1, center), 1.0 / radius)
    ensures At(Circle(center, axis, e1, e2, radius), 1.0, 0.0) == p1
  {
    DivideMultiply(1.0, radius);
    FirstCoordinate(p1.x, center.x, e2.x, 1.0 / radius, radius);
    FirstCoordinate(p1.y, center.y, e2.y, 1.0 / radius, radius);
    FirstCoordinate(p1.z, center.z, e2.z, 1.0 / radius, radius);
  }

  lemma FirstCoordinate(p: real, c: real, e: real, k: real, r: real)
    requires r * k == 1.0
    ensures c + ((p - c) * k * 1.0 + e * 0.0) * r == p
  {
    assert ((p - c) * k) * r == (p - c) * (r * k);
  }

  method LoadSystem(v: LS.Matrix) returns (a: array2<real>, b: array<real>)
    requires |v| == 3 && |v[0]| == 4 && |v[1]| == 4 && |v[2]| == 4
    ensures fresh(a) && fresh(b) && a.Length0 == 3 && a.Length1 == 3 && b.Length == 3 && LS.Augmented(a, b, 3) == v
  {
    a := new real[3, 3]((i, j) requires 0 <= i < 3 && 0 <= j < 3 => v[i][j]);
    b := new real[3](i requires 0 <= i < 3 => v[i][3]);
    assert forall i :: 0 <= i < 3 ==> LS.Augmented(a, b, 3)[i] == v[i];
  }

  /** The centre, when the solver accepts the three planes. */
  method SolveCentre(p1: Vec3, p2: Vec3, p3: Vec3, axis: Vec3) returns (ok: bool, center: Vec3)
    ensures ok <==> SolverAccepts(p1, p2, p3, axis)
    ensures ok ==> Dot(Sub(p2, p1), center) == 0.5 * (Dot(p2, p2) - Dot(p1, p1))
                   && Dot(Sub(p3, p1), center) == 0.5 * (Dot(p3, p3) - Dot(p1, p1))
                   && Dot(axis, center) == Dot(axis, p1)
  {
    hide LS.Reduce, LS.Satisfies, Coefficients, Dot;
    var v := CircleSystem(p1, p2, p3, axis);
    SystemShape(p1, p2, p3, axis);
    var a, b := LoadSystem(v);
    var x := new real[3];
    ok := LS.Solve(a, b, 3, LS.CIRCULAR_SOLVE, x);
    if !ok {
      return false, Zero3;
    }
    center := Vec3(x[0], x[1], x[2]);
    assert x[..] == [center.x, center.y, center.z];
    assert LS.Solves(v, x[..], 3);
    assert LS.Satisfies(v[0], x[..], 3) && LS.Satisfies(v[1], x[..], 3) && LS.Satisfies(v[2], x[..], 3);
    RowMeans(Sub(p2, p1), 0.5 * (Dot(p2, p2) - Dot(p1, p1)), center);
    RowMeans(Sub(p3, p1), 0.5 * (Dot(p3, p3) - Dot(p1, p1)), center);
    RowMeans(axis, Dot(axis, p1), center);
  }

  lemma SystemShape(p1: Vec3, p2: Vec3, p3: Vec3, axis: Vec3)
    ensures LS.Shape(CircleSystem(p1, p2, p3, axis), 3)
  {}

  function UnitNormal(m: MathLib, p1: Vec3, p2: Vec3, p3: Vec3): Vec3
    requires Norm(m, Normal(p1, p2, p3)) != 0.0
  {
    Scale(Normal(p1, p2, p3), 1.0 / Norm(m, Normal(p1, p2, p3)))
  }

  /** The points span a plane and the solver accepts the three planes of the centre. */
  predicate FitAccepts(m: MathLib, p1: Vec3, p2: Vec3, p3: Vec3) {
    Norm(m, Normal(p1, p2, p3)) >= COLLINEAR_EPS && SolverAccepts(p1, p2, p3, UnitNormal(m, p1, p2, p3))
  }

  predicate SolverAccepts(p1: Vec3, p2: Vec3, p3: Vec3, axis: Vec3) {
    SystemShape(p1, p2, p3, axis);
    LS.Reduce(CircleSystem(p1, p2, p3, axis), 3, 0, LS.CIRCULAR_SOLVE).Some?
  }

  lemma DifferenceBound(u: Vec3, v: Vec3, rr: real)
    requires Dot(u, u) == rr && Dot(v, v) == rr
    ensures 0.0 <= Dot(Sub(v, u), Sub(v, u)) <= 4.0 * rr
  {
    hide Dot, Sub, Add;
    DotSelf(Sub(v, u));
    DotSelf(Add(u, v));
    Parallelogram(u, v);
  }

  lemma Parallelogram(u: Vec3, v: Vec3)
    ensures Dot(Sub(v, u), Sub(v, u)) + Dot(Add(u, v), Add(u, v)) == 2.0 * Dot(u, u) + 2.0 * Dot(v, v)
  {}

  lemma SubShift(p: Vec3, q: Vec3, c: Vec3)
    ensures Sub(Sub(q, c), Sub(p, c)) == Sub(q, p)
  {}

  /** Points on a circle of squared radius `rr` span a normal of squared length at most `16 rr rr`. */
  lemma NormalBound(p1: Vec3, p2: Vec3, p3: Vec3, center: Vec3, rr: real)
    requires Dot(Sub(p1, center), Sub(p1, center)) == rr
    requires Dot(Sub(p2, center), Sub(p2, center)) == rr && Dot(Sub(p3, center), Sub(p3, center)) == rr
    ensures Dot(Normal(p1, p2, p3), Normal(p1, p2, p3)) <= 16.0 * (rr * rr)
  {
    hide Dot, Sub, Cross;
    var a, b := Sub(p2, p1), Sub(p3, p1);
    SubShift(p1, p2, center);
    SubShift(p1, p3, center);
    DifferenceBound(Sub(p1, center), Sub(p2, center), rr);
    DifferenceBound(Sub(p1, center), Sub(p3, center), rr);
    Lagrange(a, b);
    ProductBound(Dot(a, a), Dot(b, b), Dot(a, b), 4.0 * rr);
  }

  lemma ProductBound(aa: real, bb: real, ab: real, bound: real)
    requires 0.0 <= aa <= bound && 0.0 <= bb <= bound
    ensures aa * bb - ab * ab <= bound * bound
  {
    ScaleLe(aa, bb, bound);
    ScaleLe(bound, aa, bound);
    assert ab * ab >= 0.0;
  }

  /** The check of the radius can never fail: points that are not collinear keep it far above the limit. */
  lemma RadiusLarge(m: MathLib, p1: Vec3, p2: Vec3, p3: Vec3, axis: Vec3, center: Vec3)
    requires m.SqrtLaw() && Norm(m, Normal(p1, p2, p3)) >= COLLINEAR_EPS && Equidistant(center, axis, p1, p2, p3)
    ensures Norm(m, Sub(p1, center)) >= RADIUS_EPS
  {
    hide Dot, Sub, Cross, Norm, Normal;
    var n, w := Normal(p1, p2, p3), Sub(p1, center);
    NormSquare(m, n);
    NormSquare(m, w);
    NormalBound(p1, p2, p3, center, Dot(w, w));
    var norm, r := Norm(m, n), Norm(m, w);
    if r < RADIUS_EPS {
      SquareStrict(r, RADIUS_EPS);
      SquareStrict(r * r, RADIUS_EPS * RADIUS_EPS);
      SquareMonotone(COLLINEAR_EPS, norm);
      assert false;
    }
  }

  /**
   * The one circle through the three points, oriented from the first to the second and third; refused exactly
   * when stated.
   */
  method FitCircle(m: MathLib, p1: Vec3, p2: Vec3, p3: Vec3) returns (ok: bool, c: Circle)
    requires m.SqrtLaw()
    ensures ok <==> FitAccepts(m, p1, p2, p3)
    ensures ok ==> Fitted(c, p1, p2, p3) && c.axis == UnitNormal(m, p1, p2, p3)
  {
    hide LS.Reduce, Dot, Cross, Fitted, Equidistant, Norm;
    c := Circle(Zero3, Zero3, Zero3, Zero3, 0.0);
    var normal := Normal(p1, p2, p3);
    var norm := Norm(m, normal);
    if norm < COLLINEAR_EPS {
      return false, c;
    }
    NormSquare(m, normal);
    AxisFacts(m, p1, p2, p3, norm);
    c := c.(axis := Scale(normal, 1.0 / norm));
    var solved, center := SolveCentre(p1, p2, p3, c.axis);
    if !solved {
      return false, c;
    }
    CentreMeans(center, c.axis, p1, p2, p3);
    var radius := Norm(m, Sub(p1, center));
    c := c.(center := center, radius := radius);
    RadiusLarge(m, p1, p2, p3, c.axis, center);
    if radius < RADIUS_EPS {
      assert false;
      return false, c;
    }
    NormSquare(m, Sub(p1, center));
    FitFacts(p1, p2, p3, c.axis, center, radius);
    var e1 := Scale(Sub(p1, center), 1.0 / radius);
    return true, c.(e1 := e1, e2 := Cross(c.axis, e1));
  }

  /** The fit accepts the points, and `c` is the circle it returns. */
  ghost predicate FitReturns(m: MathLib, c: Circle, p1: Vec3, p2: Vec3, p3: Vec3) {
    FitAccepts(m, p1, p2, p3) && Fitted(c, p1, p2, p3) && c.axis == UnitNormal(m, p1, p2, p3)
  }

  // ---- there is only one such circle ----

  lemma BisectorConverse(p: Vec3, q: Vec3, c: Vec3)
    requires Dot(Sub(p, c), Sub(p, c)) == Dot(Sub(q, c), Sub(q, c))
    ensures Dot(Sub(q, p), c) == 0.5 * (Dot(q, q) - Dot(p, p))
  {
    hide Dot, Sub;
    DotSub(q, c, p);
    SquareOfSub(p, c);
    SquareOfSub(q, c);
  }

  lemma CentreSolves(c: Circle, p1: Vec3, p2: Vec3, p3: Vec3)
    requires Fitted(c, p1, p2, p3)
    ensures LS.Shape(CircleSystem(p1, p2, p3, c.axis), 3)
    ensures LS.Solves(CircleSystem(p1, p2, p3, c.axis), [c.center.x, c.center.y, c.center.z], 3)
  {
    hide Dot, Sub, Coefficients, LS.Satisfies;
    SystemShape(p1, p2, p3, c.axis);
    BisectorConverse(p1, p2, c.center);
    BisectorConverse(p1, p3, c.center);
    DotSub(p1, c.axis, c.center);
    DotSymmetric(c.axis, c.center);
    DotSymmetric(c.axis, p1);
    RowMeans(Sub(p2, p1), 0.5 * (Dot(p2, p2) - Dot(p1, p1)), c.center);
    RowMeans(Sub(p3, p1), 0.5 * (Dot(p3, p3) - Dot(p1, p1)), c.center);
    RowMeans(c.axis, Dot(c.axis, p1), c.center);
  }

  lemma SpokeCoordinate(p: real, center: real, e1: real, f1: real, e2: real, f2: real, r: real)
    requires r > 0.0 && p == center + (e1 * 1.0 + e2 * 0.0) * r && p == center + (f1 * 1.0 + f2 * 0.0) * r
    ensures e1 == f1
  {
    Cancel(r, e1, f1);
  }

  lemma SameSpoke(c: Circle, d: Circle, p: Vec3)
    requires c.center == d.center && c.radius == d.radius > 0.0 && p == At(c, 1.0, 0.0) == At(d, 1.0, 0.0)
    ensures c.e1 == d.e1
  {
    SpokeCoordinate(p.x, c.center.x, c.e1.x, d.e1.x, c.e2.x, d.e2.x, c.radius);
    SpokeCoordinate(p.y, c.center.y, c.e1.y, d.e1.y, c.e2.y, d.e2.y, c.radius);
    SpokeCoordinate(p.z, c.center.z, c.e1.z, d.e1.z, c.e2.z, d.e2.z, c.radius);
  }

  /** Whatever circle fits three accepted points around their normal is the one that is returned. */
  lemma CircleUnique(m: MathLib, p1: Vec3, p2: Vec3, p3: Vec3, c: Circle, d: Circle)
    requires FitAccepts(m, p1, p2, p3) && Fitted(c, p1, p2, p3) && Fitted(d, p1, p2, p3)
    requires c.axis == d.axis == UnitNormal(m, p1, p2, p3)
    ensures c == d
  {
    hide Dot, Sub, Cross, Norm, Normal, At, CircleSystem, LS.Solves, LS.Reduce;
    var y, z := [c.center.x, c.center.y, c.center.z], [d.center.x, d.center.y, d.center.z];
    CentreSolves(c, p1, p2, p3);
    CentreSolves(d, p1, p2, p3);
    if y != z {
      LS.AmbiguousRefused(CircleSystem(p1, p2, p3, c.axis), 3, LS.CIRCULAR_SOLVE, y, z);
      assert false;
    }
    assert y[0] == z[0] && y[1] == z[1] && y[2] == z[2];
    assert c.center == d.center;
    SquareInjective(c.radius, d.radius);
    SameSpoke(c, d, p1);
  }
}
