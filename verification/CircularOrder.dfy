/** The order of the fitted points around their circle, and what it means for the choice of the sweep. */
module CircularOrder {
  import opened RealMath
  import opened Vectors
  import opened CircularPath
  import opened CircularWaypoints

  // ---- the middle point comes before the end point ----

  function Minor(p: real, q: real, s: real, t: real): real { p * q - s * t }

  lemma CrossMinors(a: Vec3, b: Vec3)
    ensures Cross(a, b)
         == Vec3(Minor(a.y, b.z, a.z, b.y), Minor(a.z, b.x, a.x, b.z), Minor(a.x, b.y, a.y, b.x))
  {}

  lemma CrossCombination(p: Vec3, q: Vec3, w: Vec3, u: real, v: real)
    ensures Cross(Add(Scale(p, u), Scale(q, v)), w) == Add(Scale(Cross(p, w), u), Scale(Cross(q, w), v))
  {
    hide Cross, Minor;
    var s := Add(Scale(p, u), Scale(q, v));
    CrossMinors(s, w);
    CrossMinors(p, w);
    CrossMinors(q, w);
    MinorCombination(p.y, q.y, p.z, q.z, w.y, w.z, u, v, s.y, s.z);
    MinorCombination(p.z, q.z, p.x, q.x, w.z, w.x, u, v, s.z, s.x);
    MinorCombination(p.x, q.x, p.y, q.y, w.x, w.y, u, v, s.x, s.y);
  }

  lemma MinorCombination(
      p1: real, q1: real, p2: real, q2: real, w1: real, w2: real, u: real, v: real, s1: real, s2: real)
    requires s1 == p1 * u + q1 * v && s2 == p2 * u + q2 * v
    ensures Minor(s1, w2, s2, w1) == Minor(p1, w2, p2, w1) * u + Minor(q1, w2, q2, w1) * v
  {}

  /** The frame turned by a quarter about its axis. */
  lemma FrameQuarter(c: Circle)
    requires Frame(c)
    ensures Cross(c.e1, c.axis) == Scale(c.e2, -1.0) && Cross(c.e2, c.axis) == c.e1
  {
    hide Cross, Dot;
    CrossReversed(c.e1, c.axis);
    CrossReversed(c.e2, c.axis);
    DoubleCross(c.axis, c.axis, c.e1);
    QuarterBack(c.axis, c.e1);
  }

  lemma QuarterBack(axis: Vec3, e1: Vec3)
    ensures Scale(Sub(Scale(axis, 0.0), Scale(e1, 1.0)), -1.0) == e1
  {}

  lemma SpokeAcross(c: Circle, u: real, v: real)
    requires Frame(c)
    ensures Cross(Spoke(c, u, v), c.axis) == Spoke(c, v, -u)
  {
    hide Cross, Dot;
    FrameQuarter(c);
    CrossCombination(c.e1, c.e2, c.axis, u, v);
    TurnedSpoke(c.e1, c.e2, u, v);
  }

  lemma TurnedSpoke(e1: Vec3, e2: Vec3, u: real, v: real)
    ensures Add(Scale(Scale(e2, -1.0), u), Scale(e1, v)) == Add(Scale(e1, v), Scale(e2, -u))
  {}

  lemma SpokeProduct(c: Circle, x: real, y: real, u: real, v: real)
    requires Frame(c)
    ensures Dot(Spoke(c, x, y), Spoke(c, u, v)) == x * u + y * v
  {
    hide Cross, Dot;
    var s := Spoke(c, u, v);
    DotSum(Scale(c.e1, x), s, Scale(c.e2, y));
    DotScaled(c.e1, s, x);
    DotScaled(c.e2, s, y);
    DotSymmetric(c.e1, s);
    DotSymmetric(c.e2, s);
    DotSum(Scale(c.e1, u), c.e1, Scale(c.e2, v));
    DotSum(Scale(c.e1, u), c.e2, Scale(c.e2, v));
    DotScaled(c.e1, c.e1, u);
    DotScaled(c.e2, c.e1, v);
    DotScaled(c.e1, c.e2, u);
    DotScaled(c.e2, c.e2, v);
    DotSymmetric(c.e1, c.e2);
  }

  /** The signed area of two spokes, seen along the axis. */
  lemma SpokeArea(c: Circle, x: real, y: real, u: real, v: real)
    requires Frame(c)
    ensures Dot(Cross(Spoke(c, x, y), Spoke(c, u, v)), c.axis) == x * v - y * u
  {
    hide Cross, Dot, Spoke;
    var a, b, w := Spoke(c, x, y), Spoke(c, u, v), -u;
    Triple(a, b, c.axis);
    SpokeAcross(c, u, v);
    SpokeProduct(c, x, y, v, w);
    assert Dot(a, Cross(b, c.axis)) == x * v + y * w;
    assert y * w == -(y * u);
    assert Dot(Cross(a, b), c.axis) == x * v + y * w;
  }

  lemma CrossOfScaled(a: Vec3, b: Vec3, r: real)
    ensures Cross(Scale(a, r), Scale(b, r)) == Scale(Cross(a, b), r * r)
  {
    hide Cross, Minor;
    var f, g, rr := Scale(a, r), Scale(b, r), r * r;
    CrossMinors(f, g);
    CrossMinors(a, b);
    ScaledMinor(a.y, b.z, a.z, b.y, f.y, g.z, f.z, g.y, r, rr);
    ScaledMinor(a.z, b.x, a.x, b.z, f.z, g.x, f.x, g.z, r, rr);
    ScaledMinor(a.x, b.y, a.y, b.x, f.x, g.y, f.y, g.x, r, rr);
  }

  lemma ScaledMinor(p: real, q: real, s: real, t: real, pr: real, qr: real, sr: real, tr: real, r: real, rr: real)
    requires pr == p * r && qr == q * r && sr == s * r && tr == t * r && rr == r * r
    ensures Minor(pr, qr, sr, tr) == Minor(p, q, s, t) * rr
  {}

  /** Twice the area of the triangle of the first point and two others, signed along the axis. */
  lemma TriangleArea(c: Circle, cm: real, sm: real, ce: real, se: real)
    requires Frame(c)
    ensures var first := At(c, 1.0, 0.0);
            Dot(Cross(Sub(At(c, cm, sm), first), Sub(At(c, ce, se), first)), c.axis)
            == (c.radius * c.radius) * ((cm - 1.0) * se - sm * (ce - 1.0))
  {
    hide Cross, Dot, Spoke, At, Scale, Sub, Frame;
    ChordVector(c, cm, sm);
    ChordVector(c, ce, se);
    var a, b := Spoke(c, cm - 1.0, sm), Spoke(c, ce - 1.0, se);
    CrossOfScaled(a, b, c.radius);
    DotScaled(Cross(a, b), c.axis, c.radius * c.radius);
    SpokeArea(c, cm - 1.0, sm, ce - 1.0, se);
  }

  lemma AlongItself(n: Vec3, norm: real)
    requires norm > 0.0 && norm * norm == Dot(n, n)
    ensures Dot(n, Scale(n, 1.0 / norm)) > 0.0
  {
    hide Dot, Scale;
    DotSymmetric(n, Scale(n, 1.0 / norm));
    DotScaled(n, n, 1.0 / norm);
    DivideMultiply(1.0, norm);
    Shortened(1.0 / norm, norm, Dot(n, n));
  }

  lemma Shortened(k: real, norm: real, nn: real)
    requires norm > 0.0 && norm * k == 1.0 && norm * norm == nn
    ensures k * nn > 0.0
  {
    assert k * (norm * norm) == (norm * k) * norm;
  }

  /** The fitted points turn counter-clockwise around the fitted axis. */
  lemma Orientation(m: MathLib, c: Circle, start: Vec3, mid: Vec3, end: Vec3, cm: real, sm: real, ce: real, se: real)
    requires m.SqrtLaw() && FitReturns(m, c, start, mid, end) && mid == At(c, cm, sm) && end == At(c, ce, se)
    ensures (cm - 1.0) * se - sm * (ce - 1.0) > 0.0
  {
    hide Cross, Dot, At, Scale, Sub, Norm, SolverAccepts;
    var n := Normal(start, mid, end);
    NormSquare(m, n);
    AlongItself(n, Norm(m, n));
    TriangleArea(c, cm, sm, ce, se);
    RadiusPositive(c);
    PositiveFactor(c.radius, (cm - 1.0) * se - sm * (ce - 1.0), Dot(n, c.axis));
  }

  lemma PositiveFactor(r: real, x: real, d: real)
    requires r > 0.0 && d > 0.0 && d == (r * r) * x
    ensures x > 0.0
  {
    var rr := PositiveProduct(r, r);
    Cancel(rr, 0.0, x);
  }

  // ---- the same in terms of angles ----

  lemma HalfAngleArea(sh: real, ch: real, sk: real, ck: real, cm: real, sm: real, ce: real, se: real)
    requires ch * ch + sh * sh == 1.0 && ck * ck + sk * sk == 1.0
    requires sm == 2.0 * (sh * ch) && cm == ch * ch - sh * sh && se == 2.0 * (sk * ck) && ce == ck * ck - sk * sk
    ensures (cm - 1.0) * se - sm * (ce - 1.0) == 4.0 * ((sh * sk) * (sk * ch - ck * sh))
  {
    assert cm - 1.0 == -2.0 * (sh * sh) && ce - 1.0 == -2.0 * (sk * sk);
    AreaIdentity(sh, ch, sk, ck);
  }

  lemma AreaIdentity(sh: real, ch: real, sk: real, ck: real)
    ensures (-2.0 * (sh * sh)) * (2.0 * (sk * ck)) - (2.0 * (sh * ch)) * (-2.0 * (sk * sk))
         == 4.0 * ((sh * sk) * (sk * ch - ck * sh))
  {}

  /** Sine and cosine of an angle from those of its half. */
  lemma FromHalf(m: MathLib, a: real) returns (s: real, c: real)
    requires m.CircleLaw() && m.DoubleAngleLaw()
    ensures s == m.sin(0.5 * a) && c == m.cos(0.5 * a) && c * c + s * s == 1.0
    ensures m.sin(a) == 2.0 * (s * c) && m.cos(a) == c * c - s * s
  {
    s, c := SineCosine(m, 0.5 * a);
    assert 2.0 * (0.5 * a) == a;
    DoubleOf(m, 0.5 * a, a);
  }

  lemma DoubleOf(m: MathLib, h: real, a: real)
    requires m.DoubleAngleLaw() && a == 2.0 * h
    ensures m.sin(a) == 2.0 * (m.sin(h) * m.cos(h)) && m.cos(a) == m.cos(h) * m.cos(h) - m.sin(h) * m.sin(h)
  {}

  lemma SineAtHalfTurn(m: MathLib, h: real)
    requires m.CircleLaw() && m.SineSignLaw() && 0.0 <= h < m.pi
    ensures m.sin(h) >= 0.0 && (m.sin(h) == 0.0 <==> h == 0.0)
  {}

  lemma DifferenceSign(m: MathLib, h: real, k: real)
    requires m.CircleLaw() && m.SineSignLaw() && m.DifferenceLaw() && 0.0 <= h < m.pi && 0.0 <= k < m.pi
    requires m.sin(k) * m.cos(h) - m.cos(k) * m.sin(h) > 0.0
    ensures h < k
  {
    SineDifference(m, h, k);
    SineDifference(m, k, h);
    SineAtHalfTurn(m, if k <= h then h - k else 0.0);
  }

  lemma SineDifference(m: MathLib, a: real, b: real)
    requires m.DifferenceLaw()
    ensures m.sin(a - b) == m.sin(a) * m.cos(b) - m.cos(a) * m.sin(b)
  {}

  lemma PositiveThird(p: real, q: real, d: real)
    requires p >= 0.0 && q >= 0.0 && 4.0 * ((p * q) * d) > 0.0
    ensures p > 0.0 && q > 0.0 && d > 0.0
  {
    var pq := p * q;
    assert pq * d > 0.0;
    Cancel(if pq > 0.0 then pq else 1.0, 0.0, d);
  }

  lemma AnglesOrdered(m: MathLib, mid: real, end: real)
    requires m.CircleLaw() && m.DoubleAngleLaw() && m.SineSignLaw() && m.DifferenceLaw()
    requires 0.0 <= mid < 2.0 * m.pi && 0.0 <= end < 2.0 * m.pi
    requires (m.cos(mid) - 1.0) * m.sin(end) - m.sin(mid) * (m.cos(end) - 1.0) > 0.0
    ensures 0.0 < mid < end
  {
    hide MathLib.CircleLaw, MathLib.DoubleAngleLaw, MathLib.SineSignLaw, MathLib.DifferenceLaw;
    var sh, ch := FromHalf(m, mid);
    var sk, ck := FromHalf(m, end);
    SineAtHalfTurn(m, 0.5 * mid);
    SineAtHalfTurn(m, 0.5 * end);
    HalfAngleArea(sh, ch, sk, ck, m.cos(mid), m.sin(mid), m.cos(end), m.sin(end));
    PositiveThird(sh, sk, sk * ch - ck * sh);
    DifferenceSign(m, 0.5 * mid, 0.5 * end);
  }

  /** In every accepted fit the middle point comes strictly between the first and the last, counter-clockwise. */
  lemma MiddleComesFirst(m: MathLib, c: Circle, start: Vec3, mid: Vec3, end: Vec3)
    requires m.SqrtLaw() && m.CircleLaw() && m.DoubleAngleLaw() && m.SineSignLaw() && m.DifferenceLaw()
    requires m.PeriodLaw() && m.Atan2Law() && FitReturns(m, c, start, mid, end)
    ensures 0.0 < ModTwoPi(m, AngleOf(m, c, mid)) < ModTwoPi(m, AngleOf(m, c, end)) < 2.0 * m.pi
  {
    hide At, AngleOf, ModTwoPi, OnCircle, Frame, Norm, Normal, SolverAccepts, MathLib.CircleLaw, MathLib.DoubleAngleLaw,
         MathLib.SineSignLaw, MathLib.DifferenceLaw, MathLib.SqrtLaw, MathLib.Atan2Law;
    var j := ModFacts(m, AngleOf(m, c, mid));
    var k := ModFacts(m, AngleOf(m, c, end));
    ModSame(m, AngleOf(m, c, mid));
    ModSame(m, AngleOf(m, c, end));
    SampleAtAngle(m, c, mid);
    SampleAtAngle(m, c, end);
    var x, y := ModTwoPi(m, AngleOf(m, c, mid)), ModTwoPi(m, AngleOf(m, c, end));
    Orientation(m, c, start, mid, end, m.cos(x), m.sin(x), m.cos(y), m.sin(y));
    AnglesOrdered(m, x, y);
  }

  // ---- what the sweep of an accepted fit is ----

  /** The end point is so close behind the start that the clockwise way to it counts as a full turn. */
  predicate EndBeforeStart(end: real, turn: real) { end > turn - ANGLE_EPS }

  /**
   * With a middle point clear of the start the counter-clockwise way always passes it, so an arc is
   * refused exactly when the clockwise way does too: the end is at the start, or the middle is at the
   * end.  With a middle point at the start it is refused exactly when the end is at neither.
   */
  predicate RefusedInOrder(mid: real, end: real, turn: real) {
    if mid > ANGLE_EPS then mid < turn - ANGLE_EPS && (end - mid <= ANGLE_EPS || EndBeforeStart(end, turn))
    else end - mid > ANGLE_EPS && !EndBeforeStart(end, turn)
  }

  lemma SweepInOrder(m: MathLib, thetaMid: real, thetaEnd: real)
    requires m.PeriodLaw() && 0.0 < ModTwoPi(m, thetaMid) < ModTwoPi(m, thetaEnd) < 2.0 * m.pi
    ensures var mid, end, turn := ModTwoPi(m, thetaMid), ModTwoPi(m, thetaEnd), 2.0 * m.pi;
            ArcSweep(m, thetaMid, thetaEnd) ==
              if RefusedInOrder(mid, end, turn) then None
              else if mid > ANGLE_EPS then Some(end)
              else if EndBeforeStart(end, turn) then Some(-turn)
              else Some(end - turn)
  {
    hide ModTwoPi;
    ModClockwise(m, thetaMid);
    ModClockwise(m, thetaEnd);
  }

  /**
   * The sweep of an accepted fit, and its refusal, for all points: it runs counter-clockwise to the end
   * angle unless the middle point is within the tolerance of the start, and only then, with the end
   * point at the start as well, it is a full turn.
   */
  lemma FittedSweep(m: MathLib, c: Circle, start: Vec3, mid: Vec3, end: Vec3)
    requires m.SqrtLaw() && m.CircleLaw() && m.DoubleAngleLaw() && m.SineSignLaw() && m.DifferenceLaw()
    requires m.PeriodLaw() && m.Atan2Law() && FitReturns(m, c, start, mid, end)
    ensures var x, y, turn := ModTwoPi(m, AngleOf(m, c, mid)), ModTwoPi(m, AngleOf(m, c, end)), 2.0 * m.pi;
            && 0.0 < x < y < turn
            && ArcSweep(m, AngleOf(m, c, mid), AngleOf(m, c, end)) ==
                 if RefusedInOrder(x, y, turn) then None
                 else if x > ANGLE_EPS then Some(y)
                 else if EndBeforeStart(y, turn) then Some(-turn)
                 else Some(y - turn)
  {
    hide FitReturns, AngleOf, ModTwoPi, ArcSweep, RefusedInOrder;
    MiddleComesFirst(m, c, start, mid, end);
    SweepInOrder(m, AngleOf(m, c, mid), AngleOf(m, c, end));
  }

  /**
   * The last waypoint of an accepted arc misses the end point exactly when the middle point is within
   * the tolerance in front of the start and the end point within the tolerance behind it.
   */
  lemma FittedEnd(m: MathLib, c: Circle, start: Vec3, mid: Vec3, end: Vec3, total: real, n: nat, waypoints: seq<Vec3>)
    requires m.SqrtLaw() && m.CircleLaw() && m.DoubleAngleLaw() && m.SineSignLaw() && m.DifferenceLaw()
    requires m.PeriodLaw() && m.Atan2Law() && FitReturns(m, c, start, mid, end) && n >= 2
    requires ArcSweep(m, AngleOf(m, c, mid), AngleOf(m, c, end)) == Some(total) && Sampled(m, c, total, n, waypoints)
    ensures waypoints[n - 1] != end
       <==> ModTwoPi(m, AngleOf(m, c, mid)) <= ANGLE_EPS && EndBeforeStart(ModTwoPi(m, AngleOf(m, c, end)), 2.0 * m.pi)
  {
    hide Fitted, AngleOf, ModTwoPi, ArcSweep, Snapped, Norm, Normal, Sampled, MathLib.CircleLaw,
         MathLib.DoubleAngleLaw, MathLib.SineSignLaw, MathLib.DifferenceLaw, MathLib.SqrtLaw, MathLib.Atan2Law;
    FittedSweep(m, c, start, mid, end);
    SnappedExactly(m, AngleOf(m, c, mid), AngleOf(m, c, end), total);
    ArcEnd(m, c, start, mid, end, total, n, waypoints);
  }
}
