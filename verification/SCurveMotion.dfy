module SCurveMotion {
  import opened RealMath
  import opened SCurveTiming

  const SEGMENTS := 7

  /** Normalised path position, velocity and acceleration. */
  datatype Motion = Motion(s: real, v: real, a: real)

  const AtRest := Motion(0.0, 0.0, 0.0)

  function Durations(t: Timing): (d: seq<real>)
    ensures |d| == SEGMENTS
  {
    [t.tJ, t.tA, t.tJ, t.tV, t.tJ, t.tA, t.tJ]
  }

  function Jerks(j: real): (js: seq<real>)
    ensures |js| == SEGMENTS
  {
    [j, 0.0, -j, 0.0, -j, 0.0, j]
  }

  // The constant-jerk polynomials, on plain numbers.

  function Position(s: real, v: real, a: real, j: real, h: real): real {
    s + v * h + 0.5 * a * h * h + (1.0 / 6.0) * j * h * h * h
  }

  function Velocity(v: real, a: real, j: real, h: real): real {
    v + a * h + 0.5 * j * h * h
  }

  function Acceleration(a: real, j: real, h: real): real {
    a + j * h
  }

  /** Motion after `h` seconds of constant jerk. */
  function Advance(x: Motion, j: real, h: real): Motion {
    Motion(Position(x.s, x.v, x.a, j, h), Velocity(x.v, x.a, j, h), Acceleration(x.a, j, h))
  }

  function StartTime(t: Timing, k: nat): real
    requires k <= SEGMENTS
  {
    if k == 0 then 0.0 else StartTime(t, k - 1) + Durations(t)[k - 1]
  }

  function StartMotion(t: Timing, j: real, k: nat): Motion
    requires k <= SEGMENTS
  {
    if k == 0 then AtRest
    else Advance(StartMotion(t, j, k - 1), Jerks(j)[k - 1], Durations(t)[k - 1])
  }

  function TotalTime(t: Timing): real {
    StartTime(t, SEGMENTS)
  }

  /** Segment `k` continued to time `time`, whether or not `time` lies in that segment. */
  function OnSegment(t: Timing, j: real, k: nat, time: real): Motion
    requires k < SEGMENTS
  {
    Advance(StartMotion(t, j, k), Jerks(j)[k], time - StartTime(t, k))
  }

  /** First segment from `k` on whose end, plus `eps`, is not before `time`; the last one otherwise. */
  function Lookup(t: Timing, time: real, eps: real, k: nat): (r: nat)
    requires k < SEGMENTS
    ensures k <= r < SEGMENTS
    ensures time <= StartTime(t, r + 1) + eps || r == SEGMENTS - 1
    ensures k < r ==> StartTime(t, r) + eps < time
    decreases SEGMENTS - k
  {
    if time <= StartTime(t, k + 1) + eps || k == SEGMENTS - 1 then k else Lookup(t, time, eps, k + 1)
  }

  /** The motion the seven segments describe, with no lookup tolerance. */
  function Exact(t: Timing, j: real, time: real): Motion {
    OnSegment(t, j, Lookup(t, time, 0.0, 0), time)
  }

  // ---- the seven segments end at rest at distance one ----

  lemma AdvanceSplit(x: Motion, j: real, g: real, h: real)
    ensures Advance(Advance(x, j, g), j, h) == Advance(x, j, g + h)
  {
    SplitPosition(x.s, x.v, x.a, j, g, h);
    SplitVelocity(x.v, x.a, j, g, h);
    SplitAcceleration(x.a, j, g, h);
  }

  lemma SplitPosition(s: real, v: real, a: real, j: real, g: real, h: real)
    ensures Position(Position(s, v, a, j, g), Velocity(v, a, j, g), Acceleration(a, j, g), j, h)
         == Position(s, v, a, j, g + h)
  {}

  lemma SplitVelocity(v: real, a: real, j: real, g: real, h: real)
    ensures Velocity(Velocity(v, a, j, g), Acceleration(a, j, g), j, h) == Velocity(v, a, j, g + h)
  {}

  lemma SplitAcceleration(a: real, j: real, g: real, h: real)
    ensures Acceleration(Acceleration(a, j, g), j, h) == Acceleration(a, j, g + h)
  {}

  lemma RampUp(j: real, h: real, g: real, v: real)
    requires v == j * h * (h + g)
    ensures Advance(Advance(Advance(AtRest, j, h), 0.0, g), -j, h) == Motion(0.5 * v * (2.0 * h + g), v, 0.0)
  {}

  lemma RampDown(x: Motion, j: real, h: real, g: real)
    requires x.a == 0.0 && x.v == j * h * (h + g)
    ensures Advance(Advance(Advance(x, -j, h), 0.0, g), j, h) == Motion(x.s + 0.5 * x.v * (2.0 * h + g), 0.0, 0.0)
  {}

  lemma Origin(t: Timing, j: real)
    ensures StartTime(t, 0) == 0.0 && StartMotion(t, j, 0) == AtRest
  {}

  lemma Unfold(t: Timing, j: real, k: nat)
    requires k < SEGMENTS
    ensures StartMotion(t, j, k + 1) == Advance(StartMotion(t, j, k), Jerks(j)[k], Durations(t)[k])
    ensures StartTime(t, k + 1) == StartTime(t, k) + Durations(t)[k]
  {}

  /** End of the acceleration phase, of the cruise, and of the whole motion. */
  lemma PhaseEnds(t: Timing, j: real)
    requires Balanced(t, j)
    ensures StartMotion(t, j, 3) == Motion(0.5 * t.vPeak * (2.0 * t.tJ + t.tA), t.vPeak, 0.0)
    ensures StartMotion(t, j, 4) == Motion(0.5 * t.vPeak * (2.0 * t.tJ + t.tA) + t.vPeak * t.tV, t.vPeak, 0.0)
    ensures StartMotion(t, j, SEGMENTS) == Motion(1.0, 0.0, 0.0)
  {
    Unfold(t, j, 0); Unfold(t, j, 1); Unfold(t, j, 2);
    RampUp(j, t.tJ, t.tA, t.vPeak);
    var top := StartMotion(t, j, 3);
    Unfold(t, j, 3);
    var cruise := StartMotion(t, j, 4);
    assert cruise == Motion(top.s + t.vPeak * t.tV, t.vPeak, 0.0);
    Unfold(t, j, 4); Unfold(t, j, 5); Unfold(t, j, 6);
    RampDown(cruise, j, t.tJ, t.tA);
  }

  /** A zero jerk or a jerk of size `j` drives each segment between these accelerations. */
  function StartAcceleration(t: Timing, k: nat): real
    requires k <= SEGMENTS
  {
    [0.0, t.aPeak, t.aPeak, 0.0, 0.0, -t.aPeak, -t.aPeak, 0.0][k]
  }

  lemma {:induction false} Accelerations(t: Timing, j: real, k: nat)
    requires Balanced(t, j) && k <= SEGMENTS
    ensures StartMotion(t, j, k).a == StartAcceleration(t, k)
  {
    if k > 0 {
      Accelerations(t, j, k - 1);
      Unfold(t, j, k - 1);
      StepAcceleration(t, j, k - 1);
    }
  }

  lemma StepAcceleration(t: Timing, j: real, k: nat)
    requires Balanced(t, j) && k < SEGMENTS
    ensures StartAcceleration(t, k + 1) == Acceleration(StartAcceleration(t, k), Jerks(j)[k], Durations(t)[k])
  {}

  // ---- inside one segment ----

  /** Between two instants of one segment the mean acceleration decides the change of velocity. */
  lemma VelocityTrapezoid(v: real, a: real, j: real, g: real, h: real)
    ensures Velocity(v, a, j, h) - Velocity(v, a, j, g)
         == 0.5 * (h - g) * (Acceleration(a, j, g) + Acceleration(a, j, h))
  {}

  /** Simpson's rule is exact for the quadratic velocity of one segment. */
  lemma PositionSimpson(s: real, v: real, a: real, j: real, g: real, h: real)
    ensures Position(s, v, a, j, h) - Position(s, v, a, j, g)
         == (h - g) * (Velocity(v, a, j, g) + 4.0 * Velocity(v, a, j, 0.5 * (g + h)) + Velocity(v, a, j, h)) / 6.0
  {}

  lemma VelocityMonotone(v: real, a: real, j: real, g: real, h: real)
    requires g <= h
    ensures Acceleration(a, j, g) >= 0.0 && Acceleration(a, j, h) >= 0.0 ==>
            Velocity(v, a, j, g) <= Velocity(v, a, j, h)
    ensures Acceleration(a, j, g) <= 0.0 && Acceleration(a, j, h) <= 0.0 ==>
            Velocity(v, a, j, g) >= Velocity(v, a, j, h)
  {
    VelocityTrapezoid(v, a, j, g, h);
    var sum := Acceleration(a, j, g) + Acceleration(a, j, h);
    if sum >= 0.0 {
      ScaleLe(0.5 * (h - g), 0.0, sum);
    }
    if sum <= 0.0 {
      ScaleLe(0.5 * (h - g), sum, 0.0);
    }
  }

  lemma MeanStep(dt: real, mean: real, lo: real, hi: real)
    requires dt >= 0.0 && lo <= mean <= hi
    ensures lo * dt <= dt * mean <= hi * dt
  {}

  lemma PositionStep(s: real, v: real, a: real, j: real, g: real, h: real, vMax: real)
    requires g <= h
    requires 0.0 <= Velocity(v, a, j, g) <= vMax && 0.0 <= Velocity(v, a, j, h) <= vMax
    requires 0.0 <= Velocity(v, a, j, 0.5 * (g + h)) <= vMax
    ensures 0.0 <= Position(s, v, a, j, h) - Position(s, v, a, j, g) <= vMax * (h - g)
  {
    PositionSimpson(s, v, a, j, g, h);
    MeanStep(h - g, (Velocity(v, a, j, g) + 4.0 * Velocity(v, a, j, 0.5 * (g + h)) + Velocity(v, a, j, h)) / 6.0, 0.0,
        vMax);
  }

  lemma VelocityStep(v: real, a: real, j: real, g: real, h: real, aMax: real)
    requires g <= h && -aMax <= Acceleration(a, j, g) <= aMax && -aMax <= Acceleration(a, j, h) <= aMax
    ensures Abs(Velocity(v, a, j, h) - Velocity(v, a, j, g)) <= aMax * (h - g)
  {
    VelocityTrapezoid(v, a, j, g, h);
    MeanStep(h - g, 0.5 * (Acceleration(a, j, g) + Acceleration(a, j, h)), -aMax, aMax);
  }

  lemma AccelerationStep(a: real, j: real, g: real, h: real, jMax: real)
    requires g <= h && -jMax <= j <= jMax
    ensures Abs(Acceleration(a, j, h) - Acceleration(a, j, g)) <= jMax * (h - g)
  {
    assert Acceleration(a, j, h) - Acceleration(a, j, g) == (h - g) * j;
    MeanStep(h - g, j, -jMax, jMax);
  }

  // ---- limits ----

  ghost predicate InLimits(x: Motion, v: real, a: real) {
    0.0 <= x.v <= v && -a <= x.a <= a
  }

  lemma SegmentAcceleration(t: Timing, j: real, k: nat, h: real)
    requires Balanced(t, j) && j > 0.0 && k < SEGMENTS && 0.0 <= h <= Durations(t)[k]
    ensures var a := Acceleration(StartAcceleration(t, k), Jerks(j)[k], h);
            -t.aPeak <= a <= t.aPeak && (k <= 3 ==> a >= 0.0) && (k >= 3 ==> a <= 0.0)
  {
    if Jerks(j)[k] != 0.0 {
      assert Durations(t)[k] == t.tJ;
      MeanStep(j, h, 0.0, t.tJ);
    }
  }

  /** Velocity rises through segments 0-2, is constant in 3 and falls through 4-6. */
  lemma SegmentVelocity(t: Timing, j: real, k: nat, g: real, h: real)
    requires Balanced(t, j) && j > 0.0 && k < SEGMENTS && 0.0 <= g <= h <= Durations(t)[k]
    ensures var vg := Advance(StartMotion(t, j, k), Jerks(j)[k], g).v;
            var vh := Advance(StartMotion(t, j, k), Jerks(j)[k], h).v;
            (k <= 3 ==> vg <= vh) && (k >= 3 ==> vg >= vh)
  {
    var x := StartMotion(t, j, k);
    Accelerations(t, j, k);
    SegmentAcceleration(t, j, k, g);
    SegmentAcceleration(t, j, k, h);
    VelocityMonotone(x.v, x.a, Jerks(j)[k], g, h);
  }

  lemma AdvanceZero(x: Motion, j: real)
    ensures Advance(x, j, 0.0) == x
  {}

  lemma RisingStarts(t: Timing, j: real, k: nat)
    requires Balanced(t, j) && j > 0.0 && k <= 3
    ensures 0.0 <= StartMotion(t, j, k).v
  {
    if k > 0 {
      RisingStarts(t, j, k - 1);
      Unfold(t, j, k - 1);
      AdvanceZero(StartMotion(t, j, k - 1), Jerks(j)[k - 1]);
      SegmentVelocity(t, j, k - 1, 0.0, Durations(t)[k - 1]);
    }
  }

  lemma BelowPeak(t: Timing, j: real, k: nat)
    requires Balanced(t, j) && j > 0.0 && k <= 4
    ensures StartMotion(t, j, k).v <= t.vPeak
    decreases 4 - k
  {
    if k < 4 {
      BelowPeak(t, j, k + 1);
      Unfold(t, j, k);
      AdvanceZero(StartMotion(t, j, k), Jerks(j)[k]);
      SegmentVelocity(t, j, k, 0.0, Durations(t)[k]);
    } else {
      PhaseEnds(t, j);
    }
  }

  lemma FallingStarts(t: Timing, j: real, k: nat)
    requires Balanced(t, j) && j > 0.0 && 3 <= k <= SEGMENTS
    ensures 0.0 <= StartMotion(t, j, k).v
    decreases SEGMENTS - k
  {
    if k < SEGMENTS {
      FallingStarts(t, j, k + 1);
      Unfold(t, j, k);
      AdvanceZero(StartMotion(t, j, k), Jerks(j)[k]);
      SegmentVelocity(t, j, k, 0.0, Durations(t)[k]);
    } else {
      PhaseEnds(t, j);
    }
  }

  lemma FallingBelowPeak(t: Timing, j: real, k: nat)
    requires Balanced(t, j) && j > 0.0 && 4 <= k <= SEGMENTS
    ensures StartMotion(t, j, k).v <= t.vPeak
  {
    if k == 4 {
      PhaseEnds(t, j);
    } else {
      FallingBelowPeak(t, j, k - 1);
      Unfold(t, j, k - 1);
      AdvanceZero(StartMotion(t, j, k - 1), Jerks(j)[k - 1]);
      SegmentVelocity(t, j, k - 1, 0.0, Durations(t)[k - 1]);
    }
  }

  lemma StartVelocityInLimits(t: Timing, j: real, k: nat)
    requires Balanced(t, j) && j > 0.0 && k <= SEGMENTS
    ensures 0.0 <= StartMotion(t, j, k).v <= t.vPeak
  {
    if k <= 3 {
      RisingStarts(t, j, k);
      BelowPeak(t, j, k);
    } else {
      FallingStarts(t, j, k);
      FallingBelowPeak(t, j, k);
    }
  }

  lemma SegmentInLimits(t: Timing, j: real, k: nat, h: real)
    requires Balanced(t, j) && j > 0.0 && k < SEGMENTS && 0.0 <= h <= Durations(t)[k]
    ensures InLimits(Advance(StartMotion(t, j, k), Jerks(j)[k], h), t.vPeak, t.aPeak)
  {
    Accelerations(t, j, k);
    SegmentAcceleration(t, j, k, h);
    StartVelocityInLimits(t, j, k);
    StartVelocityInLimits(t, j, k + 1);
    Unfold(t, j, k);
    AdvanceZero(StartMotion(t, j, k), Jerks(j)[k]);
    SegmentVelocity(t, j, k, 0.0, h);
    SegmentVelocity(t, j, k, h, Durations(t)[k]);
  }

  // ---- progress between two instants ----

  /** `y` is reached from `x` in `dt` at velocity, acceleration and jerk no larger than `v`, `a`, `j`. */
  ghost predicate Within(x: Motion, y: Motion, dt: real, v: real, a: real, j: real) {
    && 0.0 <= y.s - x.s <= v * dt
    && Abs(y.v - x.v) <= a * dt
    && Abs(y.a - x.a) <= j * dt
  }

  lemma WithinTransitive(x: Motion, y: Motion, z: Motion, g: real, h: real, v: real, a: real, j: real)
    requires Within(x, y, g, v, a, j) && Within(y, z, h, v, a, j)
    ensures Within(x, z, g + h, v, a, j)
  {
    assert v * (g + h) == v * g + v * h && a * (g + h) == a * g + a * h && j * (g + h) == j * g + j * h;
  }

  lemma AdvanceProgress(x: Motion, jk: real, g: real, h: real, v: real, a: real, j: real)
    requires g <= h && -j <= jk <= j
    requires InLimits(Advance(x, jk, g), v, a) && InLimits(Advance(x, jk, h), v, a)
    requires InLimits(Advance(x, jk, 0.5 * (g + h)), v, a)
    ensures Within(Advance(x, jk, g), Advance(x, jk, h), h - g, v, a, j)
  {
    PositionStep(x.s, x.v, x.a, jk, g, h, v);
    VelocityStep(x.v, x.a, jk, g, h, a);
    AccelerationStep(x.a, jk, g, h, j);
  }

  lemma SegmentProgress(t: Timing, j: real, k: nat, g: real, h: real)
    requires Balanced(t, j) && j > 0.0 && k < SEGMENTS && 0.0 <= g <= h <= Durations(t)[k]
    ensures var x := StartMotion(t, j, k);
            Within(Advance(x, Jerks(j)[k], g), Advance(x, Jerks(j)[k], h), h - g, t.vPeak, t.aPeak, j)
  {
    SegmentInLimits(t, j, k, g);
    SegmentInLimits(t, j, k, 0.5 * (g + h));
    SegmentInLimits(t, j, k, h);
    AdvanceProgress(StartMotion(t, j, k), Jerks(j)[k], g, h, t.vPeak, t.aPeak, j);
  }

  ghost predicate NonNegative(t: Timing) {
    t.tJ >= 0.0 && t.tA >= 0.0 && t.tV >= 0.0
  }

  lemma StartTimeMonotone(t: Timing, k: nat, m: nat)
    requires NonNegative(t) && k <= m <= SEGMENTS
    ensures 0.0 <= StartTime(t, k) <= StartTime(t, m)
  {
    if k < m {
      StartTimeMonotone(t, k, m - 1);
    } else if k > 0 {
      StartTimeMonotone(t, k - 1, k - 1);
    }
  }

  ghost predicate InSegment(t: Timing, k: nat, time: real)
    requires k < SEGMENTS
  {
    StartTime(t, k) <= time <= StartTime(t, k + 1)
  }

  lemma OnSegmentProgress(t: Timing, j: real, k: nat, t1: real, t2: real)
    requires Balanced(t, j) && j > 0.0 && k < SEGMENTS
    requires InSegment(t, k, t1) && InSegment(t, k, t2) && t1 <= t2
    ensures Within(OnSegment(t, j, k, t1), OnSegment(t, j, k, t2), t2 - t1, t.vPeak, t.aPeak, j)
  {
    SegmentProgress(t, j, k, t1 - StartTime(t, k), t2 - StartTime(t, k));
  }

  /** A boundary instant belongs to both neighbouring segments and they agree there. */
  lemma Boundary(t: Timing, j: real, k: nat)
    requires NonNegative(t) && k + 1 < SEGMENTS
    ensures InSegment(t, k, StartTime(t, k + 1)) && InSegment(t, k + 1, StartTime(t, k + 1))
    ensures OnSegment(t, j, k, StartTime(t, k + 1)) == OnSegment(t, j, k + 1, StartTime(t, k + 1))
  {
    Unfold(t, j, k);
    AdvanceZero(StartMotion(t, j, k + 1), Jerks(j)[k + 1]);
  }

  lemma Progress(t: Timing, j: real, k: nat, t1: real, m: nat, t2: real)
    requires Balanced(t, j) && j > 0.0 && k <= m < SEGMENTS
    requires InSegment(t, k, t1) && InSegment(t, m, t2) && t1 <= t2
    ensures Within(OnSegment(t, j, k, t1), OnSegment(t, j, m, t2), t2 - t1, t.vPeak, t.aPeak, j)
  {
    if k == m {
      OnSegmentProgress(t, j, k, t1, t2);
    } else {
      var split := StartTime(t, m);
      StartTimeMonotone(t, k + 1, m);
      Boundary(t, j, m - 1);
      Progress(t, j, k, t1, m - 1, split);
      OnSegmentProgress(t, j, m, split, t2);
      WithinTransitive(OnSegment(t, j, k, t1), OnSegment(t, j, m, split), OnSegment(t, j, m, t2),
                       split - t1, t2 - split, t.vPeak, t.aPeak, j);
    }
  }

  // ---- the lookup tolerance ----

  // What a jerk `j` changes in `h` seconds.

  function JerkToAcceleration(j: real, h: real): real { j * h }

  function JerkToVelocity(j: real, h: real): real { 0.5 * j * h * h }

  function JerkToPosition(j: real, h: real): real { (1.0 / 6.0) * j * h * h * h }

  /** `y` lies within what jerk at most `j` can do to the motion `x` in `h`. */
  ghost predicate Drift(x: Motion, y: Motion, h: real, j: real) {
    && Abs(y.a - x.a) <= JerkToAcceleration(j, h)
    && Abs(y.v - Velocity(x.v, x.a, 0.0, h)) <= JerkToVelocity(j, h)
    && Abs(y.s - Position(x.s, x.v, x.a, 0.0, h)) <= JerkToPosition(j, h)
  }

  lemma JerkSums(j: real, g: real, h: real)
    ensures JerkToAcceleration(j, g + h) == JerkToAcceleration(j, g) + JerkToAcceleration(j, h)
    ensures JerkToVelocity(j, g + h) == JerkToVelocity(j, g) + JerkToVelocity(j, h) + h * JerkToAcceleration(j, g)
    ensures JerkToPosition(j, g + h)
         == JerkToPosition(j, g) + JerkToPosition(j, h) + h * JerkToVelocity(j, g)
             + 0.5 * (h * h) * JerkToAcceleration(j, g)
  {}

  lemma ScaleAbs(c: real, x: real, bound: real)
    requires c >= 0.0 && Abs(x) <= bound
    ensures Abs(c * x) <= c * bound
  {
    MeanStep(c, x, -bound, bound);
  }

  lemma PerturbedVelocity(v: real, a: real, yv: real, ya: real, g: real, h: real, bound: real) returns (p: real)
    requires 0.0 <= h && Abs(ya - a) <= bound
    ensures Velocity(yv, ya, 0.0, h) == Velocity(v, a, 0.0, g + h) + (yv - Velocity(v, a, 0.0, g)) + p
    ensures Abs(p) <= h * bound
  {
    p := h * (ya - a);
    ScaleAbs(h, ya - a, bound);
  }

  lemma PerturbedTerms(dv: real, da: real, h: real, boundV: real, boundA: real) returns (p: real, q: real)
    requires 0.0 <= h && Abs(dv) <= boundV && Abs(da) <= boundA
    ensures p == h * dv && q == 0.5 * (h * h) * da
    ensures Abs(p) <= h * boundV && Abs(q) <= 0.5 * (h * h) * boundA
  {
    p, q := h * dv, 0.5 * (h * h) * da;
    ScaleAbs(h, dv, boundV);
    HalfSquare(h);
    ScaleAbs(0.5 * (h * h), da, boundA);
  }

  lemma PerturbedPosition(s: real, v: real, a: real, ys: real, yv: real, ya: real, g: real, h: real, boundV: real,
      boundA: real)
    returns (p: real, q: real)
    requires 0.0 <= h && Abs(yv - Velocity(v, a, 0.0, g)) <= boundV && Abs(ya - a) <= boundA
    ensures Position(ys, yv, ya, 0.0, h) == Position(s, v, a, 0.0, g + h) + (ys - Position(s, v, a, 0.0, g)) + p + q
    ensures Abs(p) <= h * boundV && Abs(q) <= 0.5 * (h * h) * boundA
  {
    p, q := PerturbedTerms(yv - Velocity(v, a, 0.0, g), ya - a, h, boundV, boundA);
  }

  lemma DriftVelocity(x: Motion, y: Motion, zv: real, g: real, h: real, j: real)
    requires 0.0 <= h && Drift(x, y, g, j) && Abs(zv - Velocity(y.v, y.a, 0.0, h)) <= JerkToVelocity(j, h)
    ensures Abs(zv - Velocity(x.v, x.a, 0.0, g + h))
         <= JerkToVelocity(j, h) + JerkToVelocity(j, g) + h * JerkToAcceleration(j, g)
  {
    var p := PerturbedVelocity(x.v, x.a, y.v, y.a, g, h, JerkToAcceleration(j, g));
  }

  lemma DriftPosition(x: Motion, y: Motion, zs: real, g: real, h: real, j: real)
    requires 0.0 <= h && Drift(x, y, g, j) && Abs(zs - Position(y.s, y.v, y.a, 0.0, h)) <= JerkToPosition(j, h)
    ensures Abs(zs - Position(x.s, x.v, x.a, 0.0, g + h))
         <= JerkToPosition(j, h) + JerkToPosition(j, g) + h * JerkToVelocity(j, g)
             + 0.5 * (h * h) * JerkToAcceleration(j, g)
  {
    var p, q := PerturbedPosition(x.s, x.v, x.a, y.s, y.v, y.a, g, h, JerkToVelocity(j, g), JerkToAcceleration(j, g));
  }

  lemma DriftTransitive(x: Motion, y: Motion, z: Motion, g: real, h: real, j: real)
    requires 0.0 <= h && Drift(x, y, g, j) && Drift(y, z, h, j)
    ensures Drift(x, z, g + h, j)
  {
    DriftVelocity(x, y, z.v, g, h, j);
    DriftPosition(x, y, z.s, g, h, j);
    JerkSums(j, g, h);
  }

  lemma HalfSquare(h: real)
    ensures 0.5 * (h * h) >= 0.0
  {}

  lemma JerkTerms(s: real, v: real, a: real, j: real, h: real)
    ensures Acceleration(a, j, h) - a == JerkToAcceleration(j, h)
    ensures Velocity(v, a, j, h) - Velocity(v, a, 0.0, h) == JerkToVelocity(j, h)
    ensures Position(s, v, a, j, h) - Position(s, v, a, 0.0, h) == JerkToPosition(j, h)
  {}

  lemma JerkBounds(jk: real, h: real, j: real)
    requires 0.0 <= h && -j <= jk <= j
    ensures Abs(JerkToAcceleration(jk, h)) <= JerkToAcceleration(j, h)
    ensures Abs(JerkToVelocity(jk, h)) <= JerkToVelocity(j, h)
    ensures Abs(JerkToPosition(jk, h)) <= JerkToPosition(j, h)
  {
    ScaleAbs(h, jk, j);
    ScaleAbs(0.5 * h, jk * h, j * h);
    ScaleAbs((1.0 / 3.0) * h, 0.5 * h * (jk * h), 0.5 * h * (j * h));
  }

  lemma DriftAdvance(x: Motion, jk: real, h: real, j: real)
    requires 0.0 <= h && -j <= jk <= j
    ensures Drift(x, Advance(x, jk, h), h, j)
  {
    JerkTerms(x.s, x.v, x.a, jk, h);
    JerkBounds(jk, h, j);
  }

  lemma DriftOnSegment(t: Timing, j: real, k: nat, time: real)
    requires j > 0.0 && k < SEGMENTS && StartTime(t, k) <= time
    ensures Drift(StartMotion(t, j, k), OnSegment(t, j, k, time), time - StartTime(t, k), j)
  {
    DriftAdvance(StartMotion(t, j, k), Jerks(j)[k], time - StartTime(t, k), j);
  }

  lemma SegmentEnd(t: Timing, j: real, k: nat)
    requires k < SEGMENTS
    ensures OnSegment(t, j, k, StartTime(t, k + 1)) == StartMotion(t, j, k + 1)
  {
    Unfold(t, j, k);
  }

  /** From the start of segment `k` the motion drifts as one of bounded jerk, over any number of segments. */
  lemma DriftAcross(t: Timing, j: real, k: nat, m: nat, time: real)
    requires NonNegative(t) && j > 0.0 && k <= m < SEGMENTS && StartTime(t, m) <= time
    ensures Drift(StartMotion(t, j, k), OnSegment(t, j, m, time), time - StartTime(t, k), j)
  {
    DriftOnSegment(t, j, m, time);
    if k < m {
      var split := StartTime(t, m);
      StartTimeMonotone(t, m - 1, m);
      DriftAcross(t, j, k, m - 1, split);
      SegmentEnd(t, j, m - 1);
      DriftTransitive(StartMotion(t, j, k), StartMotion(t, j, m), OnSegment(t, j, m, time),
                      split - StartTime(t, k), time - split, j);
    }
  }

  /** How far two motions may differ because of a lookup tolerance `eps`. */
  ghost predicate CloseTo(x: Motion, y: Motion, eps: real, j: real) {
    && Abs(x.s - y.s) <= 2.0 * JerkToPosition(j, eps)
    && Abs(x.v - y.v) <= 2.0 * JerkToVelocity(j, eps)
    && Abs(x.a - y.a) <= 2.0 * JerkToAcceleration(j, eps)
  }

  lemma PowerMonotone(h: real, eps: real)
    requires 0.0 <= h <= eps
    ensures 0.0 <= h * h <= eps * eps && 0.0 <= h * h * h <= eps * eps * eps
  {
    ScaleLe(h, h, eps);
    ScaleLe(eps, h, eps);
    ScaleLe(h * h, h, eps);
    ScaleLe(eps, h * h, eps * eps);
  }

  lemma JerkMonotone(j: real, h: real, eps: real)
    requires j > 0.0 && 0.0 <= h <= eps
    ensures 0.0 <= JerkToAcceleration(j, h) <= JerkToAcceleration(j, eps)
    ensures 0.0 <= JerkToVelocity(j, h) <= JerkToVelocity(j, eps)
    ensures 0.0 <= JerkToPosition(j, h) <= JerkToPosition(j, eps)
  {
    PowerMonotone(h, eps);
    MeanStep(j, h, 0.0, eps);
    MeanStep(0.5 * j, h * h, 0.0, eps * eps);
    MeanStep((1.0 / 6.0) * j, h * h * h, 0.0, eps * eps * eps);
  }

  lemma DriftsClose(x: Motion, y: Motion, z: Motion, h: real, eps: real, j: real)
    requires j > 0.0 && 0.0 <= h <= eps && Drift(x, y, h, j) && Drift(x, z, h, j)
    ensures CloseTo(y, z, eps, j)
  {
    JerkMonotone(j, h, eps);
  }

  lemma LookupInSegment(t: Timing, j: real, time: real)
    requires Balanced(t, j) && 0.0 <= time <= TotalTime(t)
    ensures InSegment(t, Lookup(t, time, 0.0, 0), time)
  {}

  /** Segment `k` continued past its end drifts from the start of the next one. */
  lemma DriftPastEnd(t: Timing, j: real, k: nat, time: real)
    requires j > 0.0 && k + 1 < SEGMENTS && StartTime(t, k + 1) <= time
    ensures Drift(StartMotion(t, j, k + 1), OnSegment(t, j, k, time), time - StartTime(t, k + 1), j)
  {
    var h := time - StartTime(t, k + 1);
    Unfold(t, j, k);
    AdvanceSplit(StartMotion(t, j, k), Jerks(j)[k], Durations(t)[k], h);
    DriftAdvance(StartMotion(t, j, k + 1), Jerks(j)[k], h, j);
  }

  lemma PastEndClose(t: Timing, j: real, k: nat, m: nat, time: real, eps: real)
    requires NonNegative(t) && j > 0.0 && k < m < SEGMENTS
    requires StartTime(t, k + 1) <= time <= StartTime(t, k + 1) + eps && StartTime(t, m) <= time
    ensures CloseTo(OnSegment(t, j, k, time), OnSegment(t, j, m, time), eps, j)
  {
    DriftPastEnd(t, j, k, time);
    DriftAcross(t, j, k + 1, m, time);
    DriftsClose(StartMotion(t, j, k + 1), OnSegment(t, j, k, time), OnSegment(t, j, m, time),
                time - StartTime(t, k + 1), eps, j);
  }

  /** With or without tolerance, the segment picked describes almost the same motion. */
  lemma LookupClose(t: Timing, j: real, time: real, eps: real)
    requires NonNegative(t) && j > 0.0 && eps >= 0.0
    ensures CloseTo(OnSegment(t, j, Lookup(t, time, eps, 0), time), Exact(t, j, time), eps, j)
  {
    var k, m := Lookup(t, time, eps, 0), Lookup(t, time, 0.0, 0);
    LookupOrder(t, time, eps, 0);
    if k < m {
      LookupEarly(t, time, 0.0, 0, k);
      PastEndClose(t, j, k, m, time, eps);
    } else {
      JerkMonotone(j, 0.0, eps);
    }
  }

  lemma LookupOrder(t: Timing, time: real, eps: real, k: nat)
    requires k < SEGMENTS && eps >= 0.0
    ensures Lookup(t, time, eps, k) <= Lookup(t, time, 0.0, k)
    decreases SEGMENTS - k
  {
    if !(time <= StartTime(t, k + 1) + eps || k == SEGMENTS - 1) {
      LookupOrder(t, time, eps, k + 1);
    }
  }

  /** A segment before the one found has already ended. */
  lemma LookupEarly(t: Timing, time: real, eps: real, from: nat, k: nat)
    requires from < SEGMENTS && from <= k < Lookup(t, time, eps, from)
    ensures StartTime(t, k + 1) + eps < time
    decreases k - from
  {
    if from < k {
      LookupEarly(t, time, eps, from + 1, k);
    }
  }

  // ---- the exact motion over the whole duration ----

  lemma ExactEnds(t: Timing, j: real)
    requires Balanced(t, j) && j > 0.0
    ensures TotalTime(t) > 0.0
    ensures Exact(t, j, 0.0) == AtRest
    ensures Exact(t, j, TotalTime(t)) == Motion(1.0, 0.0, 0.0)
  {
    StartTimeMonotone(t, 1, SEGMENTS);
    AdvanceZero(AtRest, j);
    var k := Lookup(t, TotalTime(t), 0.0, 0);
    if k < SEGMENTS - 1 {
      StartTimeMonotone(t, k + 1, SEGMENTS - 1);
    }
    Unfold(t, j, SEGMENTS - 1);
    PhaseEnds(t, j);
  }

  lemma ExactProgress(t: Timing, j: real, t1: real, t2: real)
    requires Balanced(t, j) && j > 0.0 && 0.0 <= t1 <= t2 <= TotalTime(t)
    ensures Within(Exact(t, j, t1), Exact(t, j, t2), t2 - t1, t.vPeak, t.aPeak, j)
  {
    var k, m := Lookup(t, t1, 0.0, 0), Lookup(t, t2, 0.0, 0);
    LookupInSegment(t, j, t1);
    LookupInSegment(t, j, t2);
    LookupMonotone(t, t1, t2, 0);
    Progress(t, j, k, t1, m, t2);
  }

  lemma LookupMonotone(t: Timing, t1: real, t2: real, k: nat)
    requires t1 <= t2 && k < SEGMENTS
    ensures Lookup(t, t1, 0.0, k) <= Lookup(t, t2, 0.0, k)
    decreases SEGMENTS - k
  {
    if !(t2 <= StartTime(t, k + 1) || k == SEGMENTS - 1) {
      if !(t1 <= StartTime(t, k + 1)) {
        LookupMonotone(t, t1, t2, k + 1);
      }
    }
  }

  lemma ExactInLimits(t: Timing, j: real, time: real)
    requires Balanced(t, j) && j > 0.0 && 0.0 <= time <= TotalTime(t)
    ensures InLimits(Exact(t, j, time), t.vPeak, t.aPeak) && 0.0 <= Exact(t, j, time).s <= 1.0
  {
    var k := Lookup(t, time, 0.0, 0);
    LookupInSegment(t, j, time);
    SegmentInLimits(t, j, k, time - StartTime(t, k));
    ExactEnds(t, j);
    ExactProgress(t, j, 0.0, time);
    ExactProgress(t, j, time, TotalTime(t));
  }
}
