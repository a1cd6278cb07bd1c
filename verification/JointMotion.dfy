/** The joint velocities, accelerations and jerks that a stream reports belong to one motion. */
module JointMotion {
  import opened RealMath
  import opened SampleGrid
  import opened JointTrajectory

  /** Second and third derivative of the quintic by normalised time. */
  function Bend(tau: real): real { 60.0 * tau - 180.0 * tau * tau + 120.0 * tau * tau * tau }

  function Twist(tau: real): real { 60.0 - 360.0 * tau + 360.0 * tau * tau }

  // ---- exact integration of polynomials ----

  function Simpson(a: real, b: real, c: real): real { a + 4.0 * b + c }

  function BooleSum(a: real, b: real, c: real, d: real, e: real): real {
    7.0 * a + 32.0 * b + 12.0 * c + 32.0 * d + 7.0 * e
  }

  function RateRise(a: real, c: real): real {
    3.0 * ((30.0 * c * c - 60.0 * c * c * c + 30.0 * c * c * c * c)
           - (30.0 * a * a - 60.0 * a * a * a + 30.0 * a * a * a * a))
  }

  function BendArea(a: real, b: real, c: real, h: real): real {
    h * ((60.0 * a - 180.0 * a * a + 120.0 * a * a * a) + 4.0 * (60.0 * b - 180.0 * b * b + 120.0 * b * b * b)
         + (60.0 * c - 180.0 * c * c + 120.0 * c * c * c))
  }

  lemma SimpsonPolynomial(a: real, b: real, c: real, h: real)
    requires b == a + h && c == a + 2.0 * h
    ensures RateRise(a, c) == BendArea(a, b, c, h)
  {}

  lemma RateRiseIs(a: real, c: real)
    ensures RateRise(a, c) == 3.0 * (Rate(c) - Rate(a))
  {}

  lemma BendAreaIs(a: real, b: real, c: real, h: real)
    ensures BendArea(a, b, c, h) == h * Simpson(Bend(a), Bend(b), Bend(c))
  {}

  lemma SimpsonRate(a: real, b: real, c: real, h: real)
    requires b == a + h && c == a + 2.0 * h
    ensures 3.0 * (Rate(c) - Rate(a)) == h * Simpson(Bend(a), Bend(b), Bend(c))
  {
    hide *;
    SimpsonPolynomial(a, b, c, h);
    RateRiseIs(a, c);
    BendAreaIs(a, b, c, h);
  }

  lemma SimpsonBend(a: real, b: real, c: real, h: real)
    requires b == a + h && c == a + 2.0 * h
    ensures 3.0 * (Bend(c) - Bend(a)) == h * Simpson(Twist(a), Twist(b), Twist(c))
  {}

  // ---- in real time ----

  function By(k: real, x: real): real { k * x }

  /** The sample at a time of the motion, multiplied out. */
  ghost predicate Derivatives(T: real, tau: real, e: QuinticSample) {
    && e.s == Position(tau) && By(T, e.sDot) == Rate(tau)
    && By(T, By(T, e.sDDot)) == Bend(tau) && By(T, By(T, By(T, e.sDDDot))) == Twist(tau)
  }

  lemma SampleDerivatives(T: real, t: real, tau: real)
    requires T > 0.0 && 0.0 <= t <= T && T * tau == t
    ensures Derivatives(T, tau, Scaled(T, t))
  {
    hide Scaled, Position, Rate, Bend, Twist, By;
    ShareIs(T, t, tau);
    PositionIs(T, t, tau);
    RateIs(T, t, tau);
    BendIs(T, t, tau);
    TwistIs(T, t, tau);
  }

  lemma ShareIs(T: real, t: real, tau: real)
    requires T > 0.0 && T * tau == t
    ensures tau == t / T
  {
    DivideMultiply(t, T);
    Cancel(T, tau, t / T);
  }

  lemma PositionIs(T: real, t: real, tau: real)
    requires T > 0.0 && 0.0 <= t <= T && tau == t / T
    ensures Scaled(T, t).s == Position(tau)
  {
    hide Scaled, Position;
    ForcedEndsChangeNothing(T, t);
  }

  lemma RateIs(T: real, t: real, tau: real)
    requires T > 0.0 && 0.0 <= t <= T && tau == t / T
    ensures By(T, Scaled(T, t).sDot) == Rate(tau)
  {
    hide Position, Rate;
    VelocityIsRate(T, t);
  }

  lemma BendIs(T: real, t: real, tau: real)
    requires T > 0.0 && 0.0 <= t <= T && tau == t / T
    ensures By(T, By(T, Scaled(T, t).sDDot)) == Bend(tau)
  {
    Normalised(t, T);
    var tau2 := tau * tau;
    var bend := 60.0 * tau - 180.0 * tau2 + 120.0 * tau2 * tau;
    ProductPositive(T, T);
    DivideMultiply(bend, T * T);
    assert bend == Bend(tau);
    if 0.0 < t < T {
      Twice(T, Scaled(T, t).sDDot);
    }
  }

  lemma Twice(T: real, x: real)
    ensures By(T, By(T, x)) == (T * T) * x
  {}

  lemma TwistIs(T: real, t: real, tau: real)
    requires T > 0.0 && 0.0 <= t <= T && tau == t / T
    ensures By(T, By(T, By(T, Scaled(T, t).sDDDot))) == Twist(tau)
  {
    var tau2 := tau * tau;
    var twist := 60.0 - 360.0 * tau + 360.0 * tau2;
    var tt := PositiveProduct(T, T);
    ProductPositive(tt, T);
    DivideMultiply(twist, T * T * T);
    Thrice(T, Scaled(T, t).sDDDot);
  }

  lemma Thrice(T: real, x: real)
    ensures By(T, By(T, By(T, x))) == (T * T * T) * x
  {}

  // ---- the joints ----

  lemma Stretched(T: real, k: real, x: real, g: real, h: real, r: real, s: real)
    requires T * g == h && r == By(T, s) && k * x == g * r
    ensures k * x == h * s
  {
    assert g * (T * s) == (T * g) * s;
  }

  lemma StretchedRate(T: real, k: real, x: real, y: real, g: real, h: real, r: real, s: real)
    requires T > 0.0 && T * g == h && r == By(T, By(T, s)) && y == By(T, x) && k * y == g * r
    ensures k * x == h * s
  {
    assert T * (k * x) == k * y;
    assert g * (T * (T * s)) == T * ((T * g) * s);
    Cancel(T, k * x, h * s);
  }

  lemma StretchedBend(T: real, k: real, x: real, y: real, g: real, h: real, r: real, s: real)
    requires T > 0.0 && T * g == h && r == By(T, By(T, By(T, s))) && y == By(T, By(T, x)) && k * y == g * r
    ensures k * x == h * s
  {
    assert g * (T * (T * (T * s))) == T * (T * ((T * g) * s));
    assert T * (T * (k * x)) == k * y;
    Cancel(T, T * (k * x), T * (h * s));
    Cancel(T, k * x, h * s);
  }

  lemma SpreadSimpson(k: real, a: real, b: real, c: real)
    ensures Simpson(By(k, a), By(k, b), By(k, c)) == By(k, Simpson(a, b, c))
  {}

  lemma SpreadBoole(k: real, a: real, b: real, c: real, d: real, e: real)
    ensures BooleSum(By(k, a), By(k, b), By(k, c), By(k, d), By(k, e)) == By(k, BooleSum(a, b, c, d, e))
  {}

  /** The path parameter: each reported derivative is the rate of the one before. */
  lemma ParameterIntegrates(T: real, t: real, h: real)
    requires T > 0.0 && h >= 0.0 && 0.0 <= t && t + 4.0 * h <= T
    ensures var e0, e1, e2, e3, e4 :=
              Scaled(T, t), Scaled(T, t + h), Scaled(T, t + 2.0 * h), Scaled(T, t + 3.0 * h), Scaled(T, t + 4.0 * h);
            && 45.0 * (e4.s - e0.s) == 2.0 * h * BooleSum(e0.sDot, e1.sDot, e2.sDot, e3.sDot, e4.sDot)
            && 3.0 * (e2.sDot - e0.sDot) == h * Simpson(e0.sDDot, e1.sDDot, e2.sDDot)
            && 3.0 * (e2.sDDot - e0.sDDot) == h * Simpson(e0.sDDDot, e1.sDDDot, e2.sDDDot)
  {
    hide Position, Rate, Bend, Twist, Scaled, Derivatives, Simpson, BooleSum;
    var a, g := t / T, h / T;
    DivideMultiply(t, T);
    DivideMultiply(h, T);
    var b, c, d, e := a + g, a + 2.0 * g, a + 3.0 * g, a + 4.0 * g;
    SampleDerivatives(T, t, a);
    SampleDerivatives(T, t + h, b);
    SampleDerivatives(T, t + 2.0 * h, c);
    SampleDerivatives(T, t + 3.0 * h, d);
    SampleDerivatives(T, t + 4.0 * h, e);
    BooleRate(a, b, c, d, e, g);
    SimpsonRate(a, b, c, g);
    SimpsonBend(a, b, c, g);
    IntegralsStretch(T, h, a, b, c, d, e, g, Scaled(T, t), Scaled(T, t + h), Scaled(T, t + 2.0 * h),
                     Scaled(T, t + 3.0 * h), Scaled(T, t + 4.0 * h));
  }

  lemma BooleRate(a: real, b: real, c: real, d: real, e: real, g: real)
    requires b == a + g && c == a + 2.0 * g && d == a + 3.0 * g && e == a + 4.0 * g
    ensures 45.0 * (Position(e) - Position(a)) == 2.0 * g * BooleSum(Rate(a), Rate(b), Rate(c), Rate(d), Rate(e))
  {
    hide Position, Rate;
    Boole(a, b, c, d, e, g);
  }

  lemma IntegralsStretch(T: real, h: real, a: real, b: real, c: real, d: real, e: real, g: real,
      e0: QuinticSample, e1: QuinticSample, e2: QuinticSample, e3: QuinticSample, e4: QuinticSample)
    requires T > 0.0 && T * g == h && Derivatives(T, a, e0) && Derivatives(T, b, e1) && Derivatives(T, c, e2)
    requires Derivatives(T, d, e3) && Derivatives(T, e, e4)
    requires 45.0 * (Position(e) - Position(a)) == 2.0 * g * BooleSum(Rate(a), Rate(b), Rate(c), Rate(d), Rate(e))
    requires 3.0 * (Rate(c) - Rate(a)) == g * Simpson(Bend(a), Bend(b), Bend(c))
    requires 3.0 * (Bend(c) - Bend(a)) == g * Simpson(Twist(a), Twist(b), Twist(c))
    ensures 45.0 * (e4.s - e0.s) == 2.0 * h * BooleSum(e0.sDot, e1.sDot, e2.sDot, e3.sDot, e4.sDot)
    ensures 3.0 * (e2.sDot - e0.sDot) == h * Simpson(e0.sDDot, e1.sDDot, e2.sDDot)
    ensures 3.0 * (e2.sDDot - e0.sDDot) == h * Simpson(e0.sDDDot, e1.sDDDot, e2.sDDDot)
  {
    hide Derivatives, Position, Rate, Bend, Twist, Simpson, BooleSum;
    PositionStretches(T, h, a, b, c, d, e, g, e0, e1, e2, e3, e4);
    RateStretches(T, h, a, b, c, g, e0, e1, e2);
    BendStretches(T, h, a, b, c, g, e0, e1, e2);
  }

  lemma PositionStretches(T: real, h: real, a: real, b: real, c: real, d: real, e: real, g: real,
      e0: QuinticSample, e1: QuinticSample, e2: QuinticSample, e3: QuinticSample, e4: QuinticSample)
    requires T > 0.0 && T * g == h && Derivatives(T, a, e0) && Derivatives(T, b, e1) && Derivatives(T, c, e2)
    requires Derivatives(T, d, e3) && Derivatives(T, e, e4)
    requires 45.0 * (Position(e) - Position(a)) == 2.0 * g * BooleSum(Rate(a), Rate(b), Rate(c), Rate(d), Rate(e))
    ensures 45.0 * (e4.s - e0.s) == 2.0 * h * BooleSum(e0.sDot, e1.sDot, e2.sDot, e3.sDot, e4.sDot)
  {
    hide Position, Rate, Bend, Twist, BooleSum, By;
    var r, s := BooleSum(Rate(a), Rate(b), Rate(c), Rate(d), Rate(e)),
        BooleSum(e0.sDot, e1.sDot, e2.sDot, e3.sDot, e4.sDot);
    SpreadBoole(T, e0.sDot, e1.sDot, e2.sDot, e3.sDot, e4.sDot);
    Stretched(T, 45.0, e4.s - e0.s, 2.0 * g, 2.0 * h, r, s);
  }

  lemma RateStretches(T: real, h: real, a: real, b: real, c: real, g: real,
      e0: QuinticSample, e1: QuinticSample, e2: QuinticSample)
    requires T > 0.0 && T * g == h && Derivatives(T, a, e0) && Derivatives(T, b, e1) && Derivatives(T, c, e2)
    requires 3.0 * (Rate(c) - Rate(a)) == g * Simpson(Bend(a), Bend(b), Bend(c))
    ensures 3.0 * (e2.sDot - e0.sDot) == h * Simpson(e0.sDDot, e1.sDDot, e2.sDDot)
  {
    hide Position, Rate, Bend, Twist, Simpson, By;
    SpreadSimpson(T, e0.sDDot, e1.sDDot, e2.sDDot);
    SpreadSimpson(T, By(T, e0.sDDot), By(T, e1.sDDot), By(T, e2.sDDot));
    ByDifference(T, e0.sDot, e2.sDot);
    var s := Simpson(e0.sDDot, e1.sDDot, e2.sDDot);
    StretchedRate(T, 3.0, e2.sDot - e0.sDot, Rate(c) - Rate(a), g, h, Simpson(Bend(a), Bend(b), Bend(c)), s);
  }

  lemma BendStretches(T: real, h: real, a: real, b: real, c: real, g: real,
      e0: QuinticSample, e1: QuinticSample, e2: QuinticSample)
    requires T > 0.0 && T * g == h && Derivatives(T, a, e0) && Derivatives(T, b, e1) && Derivatives(T, c, e2)
    requires 3.0 * (Bend(c) - Bend(a)) == g * Simpson(Twist(a), Twist(b), Twist(c))
    ensures 3.0 * (e2.sDDot - e0.sDDot) == h * Simpson(e0.sDDDot, e1.sDDDot, e2.sDDDot)
  {
    hide Position, Rate, Bend, Twist, Simpson, By;
    var p, q, r := By(T, e0.sDDDot), By(T, e1.sDDDot), By(T, e2.sDDDot);
    SpreadSimpson(T, e0.sDDDot, e1.sDDDot, e2.sDDDot);
    SpreadSimpson(T, p, q, r);
    SpreadSimpson(T, By(T, p), By(T, q), By(T, r));
    ByDifference(T, e0.sDDot, e2.sDDot);
    ByDifference(T, By(T, e0.sDDot), By(T, e2.sDDot));
    StretchedBend(T, 3.0, e2.sDDot - e0.sDDot, Bend(c) - Bend(a), g, h, Simpson(Twist(a), Twist(b), Twist(c)),
                  Simpson(e0.sDDDot, e1.sDDDot, e2.sDDDot));
  }

  lemma ByDifference(k: real, x: real, y: real)
    ensures By(k, y - x) == By(k, y) - By(k, x)
  {}

  lemma Carried(delta: real, k: real, x: real, y: real, h: real, s: real)
    requires k * (y - x) == h * s
    ensures k * (By(delta, y) - By(delta, x)) == h * By(delta, s)
  {
    assert delta * (k * (y - x)) == k * (delta * y - delta * x) && delta * (h * s) == h * (delta * s);
  }

  ghost predicate Entries(x: JointSample, e: QuinticSample, start: real, delta: real, j: nat) {
    && |x.q| == |x.qDot| == |x.qDDot| == |x.qDDDot| == DOF && j < DOF
    && x.q[j] == start + By(delta, e.s) && x.qDot[j] == By(delta, e.sDot)
    && x.qDDot[j] == By(delta, e.sDDot) && x.qDDDot[j] == By(delta, e.sDDDot)
  }

  lemma EntriesIntegrate(delta: real, h: real, j: nat, e0: QuinticSample, e1: QuinticSample, e2: QuinticSample,
      e3: QuinticSample, e4: QuinticSample, start: real, x0: JointSample, x1: JointSample, x2: JointSample,
      x3: JointSample, x4: JointSample)
    requires Entries(x0, e0, start, delta, j) && Entries(x1, e1, start, delta, j) && Entries(x2, e2, start, delta, j)
    requires Entries(x3, e3, start, delta, j) && Entries(x4, e4, start, delta, j)
    requires 45.0 * (e4.s - e0.s) == 2.0 * h * BooleSum(e0.sDot, e1.sDot, e2.sDot, e3.sDot, e4.sDot)
    requires 3.0 * (e2.sDot - e0.sDot) == h * Simpson(e0.sDDot, e1.sDDot, e2.sDDot)
    requires 3.0 * (e2.sDDot - e0.sDDot) == h * Simpson(e0.sDDDot, e1.sDDDot, e2.sDDDot)
    ensures 45.0 * (x4.q[j] - x0.q[j])
         == 2.0 * h * BooleSum(x0.qDot[j], x1.qDot[j], x2.qDot[j], x3.qDot[j], x4.qDot[j])
    ensures 3.0 * (x2.qDot[j] - x0.qDot[j]) == h * Simpson(x0.qDDot[j], x1.qDDot[j], x2.qDDot[j])
    ensures 3.0 * (x2.qDDot[j] - x0.qDDot[j]) == h * Simpson(x0.qDDDot[j], x1.qDDDot[j], x2.qDDDot[j])
  {
    hide BooleSum, Simpson, By;
    SpreadBoole(delta, e0.sDot, e1.sDot, e2.sDot, e3.sDot, e4.sDot);
    SpreadSimpson(delta, e0.sDDot, e1.sDDot, e2.sDDot);
    SpreadSimpson(delta, e0.sDDDot, e1.sDDDot, e2.sDDDot);
    Carried(delta, 45.0, e0.s, e4.s, 2.0 * h, BooleSum(e0.sDot, e1.sDot, e2.sDot, e3.sDot, e4.sDot));
    Carried(delta, 3.0, e0.sDot, e2.sDot, h, Simpson(e0.sDDot, e1.sDDot, e2.sDDot));
    Carried(delta, 3.0, e0.sDDot, e2.sDDot, h, Simpson(e0.sDDDot, e1.sDDDot, e2.sDDDot));
  }

  lemma JointEntries(start: Joints, goal: Joints, T: real, t: real, j: nat)
    requires T > 0.0 && |start| == DOF && |goal| == DOF && j < DOF
    ensures Entries(SampleOf(start, goal, T, t, 0), Scaled(T, t), start[j], goal[j] - start[j], j)
  {
    hide Scaled;
    JointFormula(start, goal, T, t, j);
  }

  /**
   * For every joint and all times of the motion: the position is the exact integral of the reported
   * velocity (by Boole's rule), the velocity that of the reported acceleration and the acceleration that of
   * the reported jerk (by Simpson's).
   */
  lemma JointIntegrates(start: Joints, goal: Joints, T: real, t: real, h: real, j: nat)
    requires T > 0.0 && h >= 0.0 && 0.0 <= t && t + 4.0 * h <= T && |start| == DOF && |goal| == DOF && j < DOF
    ensures var x0, x1, x2 := SampleOf(start, goal, T, t, 0), SampleOf(start, goal, T, t + h, 0),
                SampleOf(start, goal, T, t + 2.0 * h, 0);
            var x3, x4 := SampleOf(start, goal, T, t + 3.0 * h, 0), SampleOf(start, goal, T, t + 4.0 * h, 0);
            && 45.0 * (x4.q[j] - x0.q[j])
               == 2.0 * h * BooleSum(x0.qDot[j], x1.qDot[j], x2.qDot[j], x3.qDot[j], x4.qDot[j])
            && 3.0 * (x2.qDot[j] - x0.qDot[j]) == h * Simpson(x0.qDDot[j], x1.qDDot[j], x2.qDDot[j])
            && 3.0 * (x2.qDDot[j] - x0.qDDot[j]) == h * Simpson(x0.qDDDot[j], x1.qDDDot[j], x2.qDDDot[j])
  {
    hide SampleOf, Scaled, BooleSum, Simpson;
    var delta := goal[j] - start[j];
    var t1, t2, t3, t4 := t + h, t + 2.0 * h, t + 3.0 * h, t + 4.0 * h;
    ParameterIntegrates(T, t, h);
    JointEntries(start, goal, T, t, j);
    JointEntries(start, goal, T, t1, j);
    JointEntries(start, goal, T, t2, j);
    JointEntries(start, goal, T, t3, j);
    JointEntries(start, goal, T, t4, j);
    EntriesIntegrate(delta, h, j, Scaled(T, t), Scaled(T, t1), Scaled(T, t2), Scaled(T, t3), Scaled(T, t4), start[j],
      SampleOf(start, goal, T, t, 0), SampleOf(start, goal, T, t1, 0), SampleOf(start, goal, T, t2, 0),
      SampleOf(start, goal, T, t3, 0), SampleOf(start, goal, T, t4, 0));
  }
}
