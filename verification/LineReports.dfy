/** What a line stream reports about itself: its status, its duration and its peaks. */
module LineReports {
  import opened RealMath
  import opened Vectors
  import opened Quaternions
  import opened SampleGrid
  import opened ArcLength
  import opened SCurveTiming
  import opened SCurveMotion
  import opened SCurveOptimal
  import opened SCurveRates
  import P = SCurveProfile
  import opened SlerpPath
  import opened LineStream

  /**
   * An initialisation is ready exactly for at least two points within the buffers, five positive numbers,
   * end points that are not the same, and a spacing whose samples fit the buffers.
   */
  lemma ReadyExactly(m: MathLib, r: Request, capacity: nat)
    requires m.SqrtLaw()
    ensures var possible := 2 <= r.points <= capacity && 0.0 < r.spacing && 0.0 < r.speed && 0.0 < r.accel
                && 0.0 < r.jerk && 0.0 < r.dt;
            && (Expected(m, r, capacity) == InvalidArgument <==> !possible)
            && (Expected(m, r, capacity) == Ok <==>
                  possible && Distance(m, r.startPosition, r.endPosition) > 0.000000000000001
                    && SampleCount(Distance(m, r.startPosition, r.endPosition), r.spacing) <= capacity)
  {
    hide Distance, SampleCount;
  }

  /** No profile that keeps the requested speed, acceleration and jerk on the line is faster than the stream. */
  lemma FastestLine(m: MathLib, r: Request, p: Plan, t: Timing)
    requires m.SqrtLaw() && m.Pow23Law() && ArgumentsOk(r) && IsPlan(m, r, p)
    requires Feasible(t, r.speed / p.length, r.accel / p.length, r.jerk / p.length)
    ensures TotalTime(p.timing) <= TotalTime(t)
  {
    hide SelectTiming, TotalTime, Feasible, Parameterized;
    ScaledRequest(r.speed, p.length);
    ScaledRequest(r.accel, p.length);
    ScaledRequest(r.jerk, p.length);
    SelectedIsFastest(m, r.speed / p.length, r.accel / p.length, r.jerk / p.length, t);
  }

  /** The peaks bound every sample delivered so far, and are the least numbers that do. */
  lemma {:induction false} PeaksMean(m: MathLib, robot: Robot, p: Plan, k: nat, bound: Peaks)
    requires k <= p.sampleCount && |p.resampled| == |p.knots|
    ensures var x := PeaksOf(m, robot, p, k);
            && (x.tcpSpeed <= bound.tcpSpeed <==>
                  && 0.0 <= bound.tcpSpeed
                  && forall i: nat :: i < k ==> SampleAt(m, robot, p, i).tcpSpeed <= bound.tcpSpeed)
            && (x.positionError <= bound.positionError <==>
                  && 0.0 <= bound.positionError
                  && forall i: nat :: i < k ==> SampleAt(m, robot, p, i).positionError <= bound.positionError)
            && (x.orientationError <= bound.orientationError <==>
                  && 0.0 <= bound.orientationError
                  && forall i: nat :: i < k ==> SampleAt(m, robot, p, i).orientationError <= bound.orientationError)
            && (x.iterations <= bound.iterations <==>
                  forall i: nat :: i < k ==> SampleAt(m, robot, p, i).iterations <= bound.iterations)
  {
    hide SampleAt;
    if k > 0 {
      PeaksMean(m, robot, p, k - 1, bound);
      var last := SampleAt(m, robot, p, k - 1);
      assert forall i: nat :: i < k ==> i < k - 1 || SampleAt(m, robot, p, i) == last;
    }
  }

  /** Between two samples the commanded orientation turns by its share of the whole angle, as the profile says. */
  lemma OrientationTurns(m: MathLib, p: Plan, i: nat, k: nat)
    requires m.SqrtLaw() && m.CircleLaw() && m.CosineDifferenceLaw() && i < p.sampleCount && k < p.sampleCount
    ensures var a := Normalize(m, p.request.startOrientation);
            var dot := Inner(a, Nearer(a, Normalize(m, p.request.endOrientation)));
            0.0 <= dot <= PARALLEL ==>
              Inner(OrientationAt(m, p, i), OrientationAt(m, p, k))
              == m.cos((ProfileAt(p, k).s - ProfileAt(p, i).s) * m.acos(dot))
  {
    hide Slerp, Normalize, Inner, Nearer, ProfileAt;
    SlerpSpeed(m, p.request.startOrientation, p.request.endOrientation, ProfileAt(p, i).s, ProfileAt(p, k).s);
  }

  lemma OnTheLine(length: real, x: real, y: real, v: real, a: real, h: real, bound: real)
    requires length > 0.0 && Abs(y - (x + Once(h, v) + Twice(h, a))) <= bound
    ensures Abs(Scaled(length, y) - (Scaled(length, x) + Once(h, Scaled(length, v)) + Twice(h, Scaled(length, a))))
         <= Scaled(length, bound)
  {
    var gap := y - (x + Once(h, v) + Twice(h, a));
    assert length * (h * v) == h * (length * v) && length * (h * (h * a)) == h * (h * (length * a));
    ScaleLe(length, gap, bound);
    ScaleLe(length, -bound, gap);
    assert length * (-bound) == -(length * bound);
  }

  /**
   * The reported TCP speed is the speed of the arc position: with the reported acceleration it predicts the
   * arc position of every later sample, up to what the jerk can do by then and the lookup tolerance.
   */
  lemma SpeedIsRate(m: MathLib, r: Request, p: Plan, i: nat, k: nat)
    requires m.SqrtLaw() && m.Pow23Law() && IsPlan(m, r, p) && i <= k < p.sampleCount
    ensures var T := TotalTime(p.timing);
            var h := SampleTime(p.sampleCount, T, r.dt, k) - SampleTime(p.sampleCount, T, r.dt, i);
            Abs(ArcAt(p, k)
                - (ArcAt(p, i) + Once(h, SpeedAt(p, i)) + Twice(h, Scaled(p.length, ProfileAt(p, i).sDDot))))
            <= Scaled(p.length, Remainder(p.jMax, h, 0.000000000001))
  {
    hide SelectTiming, TotalTime, P.Evaluated, Parameterized, IsSampleCount, SampleTime, Balanced, Once, Twice,
         Remainder, Scaled;
    PlanRequest(m, r, p);
    ScaledRequest(r.accel, p.length);
    P.SelectedPeaks(m, r.speed / p.length, r.accel / p.length, p.jMax);
    var T, n := TotalTime(p.timing), p.sampleCount;
    var t1, t2 := SampleTime(n, T, r.dt, i), SampleTime(n, T, r.dt, k);
    SampleTimes(n, T, r.dt, i);
    SampleTimes(n, T, r.dt, k);
    SampleOrder(n, T, r.dt, i, k);
    EvaluatedRates(p.timing, p.jMax, t1, t2, P.LOOKUP_SLACK);
    var e1, e2 := ProfileAt(p, i), ProfileAt(p, k);
    OnTheLine(p.length, e1.s, e2.s, e1.sDot, e1.sDDot, t2 - t1, Remainder(p.jMax, t2 - t1, P.LOOKUP_SLACK));
  }

  lemma {:induction false} SampleOrder(n: nat, T: real, dt: real, i: nat, k: nat)
    requires T >= 0.0 && dt > 0.0 && IsSampleCount(n, T, dt) && i <= k < n
    ensures SampleTime(n, T, dt, i) <= SampleTime(n, T, dt, k)
  {
    hide IsSampleCount, SampleTime;
    if i < k {
      SampleOrder(n, T, dt, i, k - 1);
      SampleTimes(n, T, dt, k - 1);
    }
  }
}
