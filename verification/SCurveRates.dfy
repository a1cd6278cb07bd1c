/** Velocity and acceleration of a profile are the rates of its position, at every instant. */
module SCurveRates {
  import opened RealMath
  import opened SCurveTiming
  import opened SCurveMotion
  import P = SCurveProfile

  /** On one segment. */
  lemma DriftWithin(t: Timing, j: real, k: nat, t1: real, t2: real)
    requires j > 0.0 && k < SEGMENTS && t1 <= t2
    ensures Drift(OnSegment(t, j, k, t1), OnSegment(t, j, k, t2), t2 - t1, j)
  {
    hide Advance, Drift, StartMotion, StartTime;
    AdvanceSplit(StartMotion(t, j, k), Jerks(j)[k], t1 - StartTime(t, k), t2 - t1);
    DriftAdvance(OnSegment(t, j, k, t1), Jerks(j)[k], t2 - t1, j);
  }

  /** Across any number of segments. */
  lemma DriftOver(t: Timing, j: real, k: nat, t1: real, m: nat, t2: real)
    requires Balanced(t, j) && j > 0.0 && k <= m < SEGMENTS
    requires InSegment(t, k, t1) && InSegment(t, m, t2) && t1 <= t2
    ensures Drift(OnSegment(t, j, k, t1), OnSegment(t, j, m, t2), t2 - t1, j)
  {
    hide OnSegment, Drift;
    if k == m {
      DriftWithin(t, j, k, t1, t2);
    } else {
      var split := StartTime(t, m);
      StartTimeMonotone(t, k + 1, m);
      Boundary(t, j, m - 1);
      DriftOver(t, j, k, t1, m - 1, split);
      DriftWithin(t, j, m, split, t2);
      DriftTransitive(OnSegment(t, j, k, t1), OnSegment(t, j, m, split), OnSegment(t, j, m, t2),
                      split - t1, t2 - split, j);
    }
  }

  /**
   * Between any two times of the profile: position, velocity and acceleration follow from those at the
   * earlier one, up to what the jerk limit can do in between.
   */
  lemma ExactDrift(t: Timing, j: real, t1: real, t2: real)
    requires Balanced(t, j) && j > 0.0 && 0.0 <= t1 <= t2 <= TotalTime(t)
    ensures Drift(Exact(t, j, t1), Exact(t, j, t2), t2 - t1, j)
  {
    hide Balanced, Drift, OnSegment;
    LookupInSegment(t, j, t1);
    LookupInSegment(t, j, t2);
    LookupMonotone(t, t1, t2, 0);
    DriftOver(t, j, Lookup(t, t1, 0.0, 0), t1, Lookup(t, t2, 0.0, 0), t2);
  }

  // ---- evaluated samples ----

  function Once(h: real, x: real): real { h * x }

  function Twice(h: real, x: real): real { 0.5 * (h * (h * x)) }

  /** What the position at `h` seconds after a sample owes to jerk, and to the lookup tolerance. */
  function Remainder(j: real, h: real, eps: real): real {
    JerkToPosition(j, h) + 4.0 * JerkToPosition(j, eps) + Once(h, 2.0 * JerkToVelocity(j, eps))
    + Twice(h, 2.0 * JerkToAcceleration(j, eps))
  }

  lemma OnceGap(h: real, x: real, y: real, bound: real)
    requires h >= 0.0 && Abs(x - y) <= bound
    ensures Abs(Once(h, x) - Once(h, y)) <= Once(h, bound)
  {
    assert h * x - h * y == h * (x - y);
    ScaleLe(h, x - y, bound);
    ScaleLe(h, -bound, x - y);
    assert h * (-bound) == -(h * bound);
  }

  lemma TwiceGap(h: real, x: real, y: real, bound: real)
    requires h >= 0.0 && Abs(x - y) <= bound
    ensures Abs(Twice(h, x) - Twice(h, y)) <= Twice(h, bound)
  {
    OnceGap(h, x, y, bound);
    OnceGap(h, Once(h, x), Once(h, y), Once(h, bound));
  }

  lemma Expansion(s: real, v: real, a: real, h: real)
    ensures Position(s, v, a, 0.0, h) == s + Once(h, v) + Twice(h, a)
  {}

  lemma CloseRemainder(e1: Motion, e2: Motion, x1: Motion, x2: Motion, h: real, eps: real, j: real)
    requires h >= 0.0 && CloseTo(e1, x1, eps, j) && CloseTo(e2, x2, eps, j) && Drift(x1, x2, h, j)
    ensures Abs(e2.s - (e1.s + Once(h, e1.v) + Twice(h, e1.a))) <= Remainder(j, h, eps)
  {
    hide JerkToPosition, JerkToVelocity, JerkToAcceleration, Position, Velocity, Once, Twice;
    Expansion(x1.s, x1.v, x1.a, h);
    OnceGap(h, e1.v, x1.v, 2.0 * JerkToVelocity(j, eps));
    TwiceGap(h, e1.a, x1.a, 2.0 * JerkToAcceleration(j, eps));
  }

  /** The reported velocity and acceleration of a sample predict the position of every later one. */
  lemma EvaluatedRates(t: Timing, j: real, t1: real, t2: real, eps: real)
    requires Balanced(t, j) && j > 0.0 && eps >= 0.0 && 0.0 <= t1 <= t2 <= TotalTime(t)
    ensures var e1, e2 := P.Evaluated(t, j, t1, eps), P.Evaluated(t, j, t2, eps); var h := t2 - t1;
            Abs(e2.s - (e1.s + Once(h, e1.sDot) + Twice(h, e1.sDDot))) <= Remainder(j, h, eps)
  {
    hide Balanced, P.Evaluated, Exact, TotalTime, CloseTo, Drift, Remainder, Once, Twice;
    P.EvaluatedNearExact(t, j, t1, eps);
    P.EvaluatedNearExact(t, j, t2, eps);
    ExactDrift(t, j, t1, t2);
    var e1, e2 := P.Evaluated(t, j, t1, eps), P.Evaluated(t, j, t2, eps);
    var y1, y2 := Motion(e1.s, e1.sDot, e1.sDDot), Motion(e2.s, e2.sDot, e2.sDDot);
    CloseRemainder(y1, y2, Exact(t, j, t1), Exact(t, j, t2), t2 - t1, eps, j);
  }
}
