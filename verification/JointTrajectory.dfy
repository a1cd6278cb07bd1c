/** Quintic time scaling, and the joint-space point-to-point motion on top of it. */
module JointTrajectory {
  import opened RealMath
  import opened SampleGrid

  const DOF := 6

  datatype Status = Ok | Finished | InvalidArgument | ProfileFailed

  // ---- the quintic ----

  function Position(tau: real): real {
    10.0 * tau * tau * tau - 15.0 * tau * tau * tau * tau + 6.0 * tau * tau * tau * tau * tau
  }

  /** The derivative of the position by normalised time. */
  function Rate(tau: real): real { 30.0 * (tau * (1.0 - tau)) * (tau * (1.0 - tau)) }

  function Rise(a: real, e: real): real {
    45.0 * ((10.0 * e * e * e - 15.0 * e * e * e * e
        + 6.0 * e * e * e * e * e) - (10.0 * a * a * a - 15.0 * a * a * a * a + 6.0 * a * a * a * a * a))
  }

  function Area(a: real, b: real, c: real, d: real, e: real, h: real): real {
    2.0 * h * (7.0 * (30.0 * (a * (1.0 - a)) * (a * (1.0 - a))) + 32.0 * (30.0 * (b * (1.0 - b)) * (b * (1.0 - b)))
               + 12.0 * (30.0 * (c * (1.0 - c)) * (c * (1.0 - c))) + 32.0 * (30.0 * (d * (1.0 - d)) * (d * (1.0 - d)))
               + 7.0 * (30.0 * (e * (1.0 - e)) * (e * (1.0 - e))))
  }

  lemma BoolePolynomial(a: real, b: real, c: real, d: real, e: real, h: real)
    requires b == a + h && c == a + 2.0 * h && d == a + 3.0 * h && e == a + 4.0 * h
    ensures Rise(a, e) == Area(a, b, c, d, e, h)
  {}

  lemma RiseIs(a: real, e: real)
    ensures Rise(a, e) == 45.0 * (Position(e) - Position(a))
  {}

  lemma AreaIs(a: real, b: real, c: real, d: real, e: real, h: real)
    ensures Area(a, b, c, d, e, h) == 2.0 * h * (7.0 * Rate(a) + 32.0 * Rate(b) + 12.0 * Rate(c) + 32.0 * Rate(d)
            + 7.0 * Rate(e))
  {}

  /** Boole's rule over five equally spaced points integrates the rate exactly. */
  lemma Boole(a: real, b: real, c: real, d: real, e: real, h: real)
    requires b == a + h && c == a + 2.0 * h && d == a + 3.0 * h && e == a + 4.0 * h
    ensures 45.0 * (Position(e) - Position(a))
            == 2.0 * h * (7.0 * Rate(a) + 32.0 * Rate(b) + 12.0 * Rate(c) + 32.0 * Rate(d) + 7.0 * Rate(e))
  {
    hide *;
    BoolePolynomial(a, b, c, d, e, h);
    RiseIs(a, e);
    AreaIs(a, b, c, d, e, h);
  }

  lemma SignedProduct(a: real, b: real) returns (p: real)
    ensures p == a * b
    ensures (a >= 0.0 && b >= 0.0) || (a <= 0.0 && b <= 0.0) ==> p >= 0.0
    ensures (a >= 0.0 && b <= 0.0) || (a <= 0.0 && b >= 0.0) ==> p <= 0.0
  {
    p := a * b;
  }

  lemma RateRange(tau: real)
    requires 0.0 <= tau <= 1.0
    ensures 0.0 <= Rate(tau) <= 1.875
  {
    var p := SignedProduct(tau, 1.0 - tau);
    var s := SignedProduct(tau - 0.5, tau - 0.5);
    assert p == 0.25 - s;
    SquareMonotone(p, 0.25);
  }

  /** The quintic rises by at most 1.875 per unit of normalised time. */
  lemma PositionRises(a: real, b: real)
    requires 0.0 <= a <= b <= 1.0
    ensures 0.0 <= Position(b) - Position(a) <= 1.875 * (b - a)
  {
    hide Position, Rate;
    var h := 0.25 * (b - a);
    var x, y, z := a + h, a + 2.0 * h, a + 3.0 * h;
    Boole(a, x, y, z, b, h);
    var area := 2.0 * h * (7.0 * Rate(a) + 32.0 * Rate(x) + 12.0 * Rate(y) + 32.0 * Rate(z) + 7.0 * Rate(b));
    RateRange(a);
    RateRange(x);
    RateRange(y);
    RateRange(z);
    RateRange(b);
    Weighted(h, Rate(a), Rate(x), Rate(y), Rate(z), Rate(b), area);
    Divide45(Position(b) - Position(a), area, h);
  }

  lemma Divide45(x: real, area: real, h: real)
    requires 45.0 * x == area && 0.0 <= area <= 45.0 * (1.875 * (4.0 * h))
    ensures 0.0 <= x <= 1.875 * (4.0 * h)
  {}

  lemma Weighted(h: real, p: real, q: real, r: real, s: real, t: real, area: real)
    requires h >= 0.0 && 0.0 <= p <= 1.875 && 0.0 <= q <= 1.875 && 0.0 <= r <= 1.875 && 0.0 <= s <= 1.875
             && 0.0 <= t <= 1.875
    requires area == 2.0 * h * (7.0 * p + 32.0 * q + 12.0 * r + 32.0 * s + 7.0 * t)
    ensures 0.0 <= area <= 45.0 * (1.875 * (4.0 * h))
  {
    var sum := 7.0 * p + 32.0 * q + 12.0 * r + 32.0 * s + 7.0 * t;
    assert 0.0 <= sum <= 90.0 * 1.875;
    ScaleLe(2.0 * h, 0.0, sum);
    ScaleLe(2.0 * h, sum, 90.0 * 1.875);
  }

  lemma PositionEnds()
    ensures Position(0.0) == 0.0 && Position(1.0) == 1.0
  {}

  datatype QuinticSample = QuinticSample(t: real, s: real, sDot: real, sDDot: real, sDDDot: real)

  function ClampTime(time: real, T: real): real {
    if time < 0.0 then (if 0.0 > T then T else 0.0) else if time > T then T else time
  }

  function Scaled(T: real, time: real): QuinticSample
    requires T > 0.0
  {
    var t := ClampTime(time, T);
    var tau := t / T;
    var tau2 := tau * tau;
    var moving := 0.0 < t < T;
    QuinticSample(
      t,
      if t >= T then 1.0 else if t <= 0.0 then 0.0 else Position(tau),
      if moving then (30.0 * tau2 - 60.0 * tau2 * tau + 30.0 * tau2 * tau2) / T else 0.0,
      if moving then (60.0 * tau - 180.0 * tau2 + 120.0 * tau2 * tau) / (T * T) else 0.0,
      (60.0 - 360.0 * tau + 360.0 * tau2) / (T * T * T))
  }

  lemma Normalised(t: real, T: real)
    requires T > 0.0 && 0.0 <= t <= T
    ensures 0.0 <= t / T <= 1.0 && T * (t / T) == t && 0.0 / T == 0.0 && T / T == 1.0
  {
    DivideMultiply(t, T);
    DivideCompare(t, T, 0.0);
    Cancel(T, t / T, 1.0);
    DivideMultiply(T, T);
    Cancel(T, T / T, 1.0);
  }

  /** The reported velocity is the rate whose integral is the position, at the forced ends too. */
  lemma VelocityIsRate(T: real, time: real)
    requires T > 0.0
    ensures var e := Scaled(T, time); T * e.sDot == Rate(e.t / T)
  {
    var t := ClampTime(time, T);
    Normalised(t, T);
    RateExpands(t / T);
    var r := 30.0 * ((t / T) * (t / T)) - 60.0 * ((t / T) * (t / T)) * (t / T)
        + 30.0 * ((t / T) * (t / T)) * ((t / T) * (t / T));
    DivideMultiply(r, T);
  }

  lemma RateExpands(tau: real)
    ensures Rate(tau) == 30.0 * (tau * tau) - 60.0 * (tau * tau) * tau + 30.0 * (tau * tau) * (tau * tau)
  {}

  /** The forced end values are those of the polynomial. */
  lemma ForcedEndsChangeNothing(T: real, time: real)
    requires T > 0.0
    ensures Scaled(T, time).s == Position(ClampTime(time, T) / T)
  {
    Normalised(ClampTime(time, T), T);
    PositionEnds();
  }

  /** Between two times the path parameter never falls and rises by at most 1.875 of the elapsed share. */
  lemma ScaledProgress(T: real, t1: real, t2: real)
    requires T > 0.0 && t1 <= t2
    ensures 0.0 <= Scaled(T, t1).s <= Scaled(T, t2).s <= 1.0
    ensures T * (Scaled(T, t2).s - Scaled(T, t1).s) <= 1.875 * (t2 - t1)
  {
    hide Position, Scaled;
    var c1, c2 := ClampTime(t1, T), ClampTime(t2, T);
    ForcedEndsChangeNothing(T, t1);
    ForcedEndsChangeNothing(T, t2);
    var a, b := ShareRange(T, c1, c2);
    PositionEnds();
    PositionRises(0.0, a);
    PositionRises(a, b);
    PositionRises(b, 1.0);
    ShareOf(T, a, b, c1, c2, Scaled(T, t2).s - Scaled(T, t1).s);
  }

  lemma Share(T: real, c: real) returns (a: real)
    requires T > 0.0 && 0.0 <= c <= T
    ensures a == c / T && 0.0 <= a <= 1.0 && T * a == c
  {
    a := c / T;
    Normalised(c, T);
  }

  lemma ShareOrder(T: real, a: real, b: real, c1: real, c2: real)
    requires T > 0.0 && T * a == c1 && T * b == c2 && c1 <= c2
    ensures a <= b
  {
    Cancel(T, a, b);
  }

  lemma ShareRange(T: real, c1: real, c2: real) returns (a: real, b: real)
    requires T > 0.0 && 0.0 <= c1 <= c2 <= T
    ensures a == c1 / T && b == c2 / T && 0.0 <= a <= b <= 1.0 && T * a == c1 && T * b == c2
  {
    a := Share(T, c1);
    b := Share(T, c2);
    ShareOrder(T, a, b, c1, c2);
  }

  lemma ShareOf(T: real, a: real, b: real, c1: real, c2: real, rise: real)
    requires T > 0.0 && T * a == c1 && T * b == c2 && rise <= 1.875 * (b - a)
    ensures T * rise <= 1.875 * (c2 - c1)
  {
    ScaleLe(T, rise, 1.875 * (b - a));
    assert T * (1.875 * (b - a)) == 1.875 * (T * b - T * a);
  }

  // ---- the joint motion ----

  type Joints = seq<real>

  datatype JointSample = JointSample(index: nat, profile: QuinticSample, q: Joints, qDot: Joints, qDDot: Joints,
      qDDDot: Joints)

  function Travelled(start: real, delta: real, s: real): real { start + delta * s }

  function Deltas(start: Joints, goal: Joints): (d: Joints)
    requires |start| == DOF && |goal| == DOF
    ensures |d| == DOF
  {
    seq(DOF, j requires 0 <= j < DOF => goal[j] - start[j])
  }

  function Times(delta: Joints, s: real): (r: Joints)
    ensures |r| == |delta|
  {
    seq(|delta|, j requires 0 <= j < |delta| => delta[j] * s)
  }

  function JointsAt(start: Joints, goal: Joints, T: real, time: real): (q: Joints)
    requires T > 0.0 && |start| == DOF && |goal| == DOF
    ensures |q| == DOF
  {
    var e := Scaled(T, time);
    if e.t >= T then goal
    else if e.t <= 0.0 then start
    else seq(DOF, j requires 0 <= j < DOF => Travelled(start[j], goal[j] - start[j], e.s))
  }

  /** The joint position is the same formula at the ends as everywhere. */
  lemma JointFormula(start: Joints, goal: Joints, T: real, time: real, j: nat)
    requires T > 0.0 && |start| == DOF && |goal| == DOF && j < DOF
    ensures JointsAt(start, goal, T, time)[j] == Travelled(start[j], goal[j] - start[j], Scaled(T, time).s)
  {}

  /** A joint between its two end values. */
  predicate Between(x: real, a: real, b: real) { (a <= x <= b) || (b <= x <= a) }

  lemma TravelledRange(start: real, goal: real, s1: real, s2: real)
    requires 0.0 <= s1 <= s2 <= 1.0
    ensures var x1, x2 := Travelled(start, goal - start, s1), Travelled(start, goal - start, s2);
            Between(x1, start, goal) && Between(x2, x1, goal) && Abs(x2 - x1) == Abs(goal - start) * (s2 - s1)
  {
    hide Travelled;
    var d := goal - start;
    TravelledOrder(start, d, 0.0, s1);
    TravelledOrder(start, d, s1, s2);
    TravelledOrder(start, d, s2, 1.0);
    TravelledEnds(start, d);
  }

  lemma TravelledEnds(start: real, d: real)
    ensures Travelled(start, d, 0.0) == start && Travelled(start, d, 1.0) == start + d
  {}

  lemma TravelledOrder(start: real, d: real, s1: real, s2: real)
    requires s1 <= s2
    ensures d >= 0.0 ==> Travelled(start, d, s1) <= Travelled(start, d, s2)
    ensures d <= 0.0 ==> Travelled(start, d, s1) >= Travelled(start, d, s2)
    ensures Abs(Travelled(start, d, s2) - Travelled(start, d, s1)) == Abs(d) * (s2 - s1)
  {
    var p := SignedProduct(d, s2 - s1);
    assert Travelled(start, d, s2) - Travelled(start, d, s1) == p;
    assert (-d) * (s2 - s1) == -p;
  }

  /**
   * Each joint moves monotonically from start to goal, so it keeps every limit that both ends
   * keep, and between two times it moves at most 1.875 of its share of the elapsed time.
   */
  lemma JointProgress(start: Joints, goal: Joints, T: real, t1: real, t2: real, j: nat)
    requires T > 0.0 && |start| == DOF && |goal| == DOF && j < DOF && t1 <= t2
    ensures var x1, x2 := JointsAt(start, goal, T, t1)[j], JointsAt(start, goal, T, t2)[j];
            && Between(x1, start[j], goal[j]) && Between(x2, x1, goal[j])
            && T * Abs(x2 - x1) <= 1.875 * Abs(goal[j] - start[j]) * (t2 - t1)
  {
    hide Scaled, Travelled, JointsAt, Between;
    JointFormula(start, goal, T, t1, j);
    JointFormula(start, goal, T, t2, j);
    ScaledProgress(T, t1, t2);
    var s1, s2 := Scaled(T, t1).s, Scaled(T, t2).s;
    TravelledRange(start[j], goal[j], s1, s2);
    StepArithmetic(T, Abs(goal[j] - start[j]), s2 - s1, t2 - t1);
  }

  lemma StepArithmetic(T: real, d: real, ds: real, dt: real)
    requires d >= 0.0 && T * ds <= 1.875 * dt
    ensures T * (d * ds) <= 1.875 * d * dt
  {
    ScaleLe(d, T * ds, 1.875 * dt);
    assert d * (T * ds) == T * (d * ds) && d * (1.875 * dt) == 1.875 * d * dt;
  }

  function SampleOf(start: Joints, goal: Joints, T: real, time: real, index: nat): JointSample
    requires T > 0.0 && |start| == DOF && |goal| == DOF
  {
    var e := Scaled(T, time);
    var delta := Deltas(start, goal);
    JointSample(index, e, JointsAt(start, goal, T, time), Times(delta, e.sDot), Times(delta, e.sDDot),
        Times(delta, e.sDDDot))
  }

  class JointTrajectory {
    var initialized: bool
    var finished: bool
    var status: Status
    var qStart: Joints
    var qGoal: Joints
    var deltaQ: Joints
    var T: real
    var dt: real
    var sampleCount: nat
    var nextSampleIndex: nat

    ghost predicate Valid()
      reads this
    {
      initialized ==>
        && |qStart| == DOF && |qGoal| == DOF && deltaQ == Deltas(qStart, qGoal)
        && T > 0.0 && dt > 0.0 && sampleCount >= 2 && IsSampleCount(sampleCount, T, dt)
        && nextSampleIndex <= sampleCount && (finished <==> nextSampleIndex == sampleCount)
    }

    constructor ()
      ensures Valid() && !initialized
    {
      initialized, finished, status := false, false, InvalidArgument;
      qStart, qGoal, deltaQ, T, dt, sampleCount, nextSampleIndex := [], [], [], 0.0, 0.0, 0, 0;
    }

    method Init(start: Joints, goal: Joints, duration: real, spacing: real) returns (ok: bool)
      requires Valid() && |start| == DOF && |goal| == DOF
      modifies this
      ensures Valid() && ok == (duration > 0.0 && spacing > 0.0)
      ensures ok ==> initialized && !finished && status == Ok && nextSampleIndex == 0
                     && qStart == start && qGoal == goal && T == duration && dt == spacing
      ensures !ok ==> unchanged(this)
    {
      if duration <= 0.0 || spacing <= 0.0 {
        return false;
      }
      qStart, qGoal := start, goal;
      deltaQ := Deltas(start, goal);
      T, dt := duration, spacing;
      sampleCount := CountSamples(T, dt);
      nextSampleIndex, initialized, finished, status := 0, true, false, Ok;
      return true;
    }

    method Evaluate(time: real, index: nat) returns (sample: JointSample)
      requires Valid() && initialized
      ensures sample == SampleOf(qStart, qGoal, T, time, index)
    {
      hide Scaled, IsSampleCount;
      var e := Scaled(T, time);
      var q := new real[DOF];
      for j := 0 to DOF
        invariant forall k :: 0 <= k < j ==> q[k] == Travelled(qStart[k], qGoal[k] - qStart[k], e.s)
      {
        var delta := deltaQ[j];
        q[j] := Travelled(qStart[j], delta, e.s);
      }
      var joints := q[..];
      if e.t <= 0.0 {
        joints := qStart;
      }
      if e.t >= T {
        joints := qGoal;
      }
      ScaledRest(T, time);
      return JointSample(index, e, joints, Times(deltaQ, e.sDot), Times(deltaQ, e.sDDot), Times(deltaQ, e.sDDDot));
    }

    method Next() returns (ok: bool, sample: JointSample)
      requires Valid()
      modifies this`nextSampleIndex, this`finished, this`status
      ensures Valid()
      ensures !initialized ==> !ok && status == InvalidArgument
      ensures initialized && old(nextSampleIndex) == sampleCount ==> !ok && status == Finished
      ensures initialized && old(nextSampleIndex) < sampleCount ==>
                ok && status == Ok && sample == SampleOf(qStart, qGoal, T,
                    SampleTime(sampleCount, T, dt, old(nextSampleIndex)), old(nextSampleIndex))
      ensures nextSampleIndex == if ok then old(nextSampleIndex) + 1 else old(nextSampleIndex)
    {
      hide SampleOf, IsSampleCount;
      if !initialized {
        status := InvalidArgument;
        return false, JointSample(0, QuinticSample(0.0, 0.0, 0.0, 0.0, 0.0), [], [], [], []);
      }
      if nextSampleIndex >= sampleCount {
        finished, status := true, Finished;
        return false, JointSample(0, QuinticSample(0.0, 0.0, 0.0, 0.0, 0.0), [], [], [], []);
      }
      sample := Evaluate(SampleTime(sampleCount, T, dt, nextSampleIndex), nextSampleIndex);
      nextSampleIndex := nextSampleIndex + 1;
      if nextSampleIndex >= sampleCount {
        finished := true;
      }
      status := Ok;
      ok := true;
    }
  }

  lemma ScaledRest(T: real, time: real)
    requires T > 0.0
    ensures var e := Scaled(T, time); e.t >= T || e.t <= 0.0 ==> e.sDot == 0.0 && e.sDDot == 0.0
  {}

  lemma StreamEnds(start: Joints, goal: Joints, T: real, dt: real, n: nat)
    requires T > 0.0 && dt > 0.0 && n >= 2 && IsSampleCount(n, T, dt) && |start| == DOF && |goal| == DOF
    ensures JointsAt(start, goal, T, SampleTime(n, T, dt, 0)) == start
            && JointsAt(start, goal, T, SampleTime(n, T, dt, n - 1)) == goal
  {
    hide IsSampleCount, SampleTime, Position;
    SampleTimes(n, T, dt, 0);
  }

  /** The samples of the stream in order: exact ends, increasing times, bounded motion in between. */
  lemma StreamSamples(start: Joints, goal: Joints, T: real, dt: real, n: nat, i: nat, j: nat)
    requires T > 0.0 && dt > 0.0 && n >= 2 && IsSampleCount(n, T, dt) && |start| == DOF && |goal| == DOF && i + 1 < n
             && j < DOF
    ensures var t0, t1 := SampleTime(n, T, dt, i), SampleTime(n, T, dt, i + 1);
            var a, b := JointsAt(start, goal, T, t0), JointsAt(start, goal, T, t1);
            && 0.0 <= t0 < t1 <= t0 + dt && t1 <= T
            && JointsAt(start, goal, T, SampleTime(n, T, dt, 0)) == start
            && JointsAt(start, goal, T, SampleTime(n, T, dt, n - 1)) == goal
            && Between(a[j], start[j], goal[j]) && Between(b[j], a[j], goal[j])
            && T * Abs(b[j] - a[j]) <= 1.875 * Abs(goal[j] - start[j]) * (t1 - t0)
  {
    hide IsSampleCount, SampleTime, Between, Scaled, JointsAt, Position;
    StreamEnds(start, goal, T, dt, n);
    SampleTimes(n, T, dt, i);
    SampleTimes(n, T, dt, i + 1);
    JointProgress(start, goal, T, SampleTime(n, T, dt, i), SampleTime(n, T, dt, i + 1), j);
  }
}
