module SCurveProfile {
  import opened RealMath
  import opened SCurveTiming
  import opened SCurveMotion
  import opened SampleGrid

  /** Slack with which the evaluator compares a time with a segment end. */
  const LOOKUP_SLACK := 0.000000000001

  datatype Sample = Sample(t: real, s: real, sDot: real, sDDot: real, sDDDot: real)

  function Clamp(t: Timing, time: real): real {
    var c := if time < 0.0 then 0.0 else time;
    if c > TotalTime(t) then TotalTime(t) else c
  }

  /** One evaluation, with the end points forced. */
  function Evaluated(t: Timing, j: real, time: real, eps: real): Sample {
    var c := Clamp(t, time);
    var k := Lookup(t, c, eps, 0);
    var x := if c >= TotalTime(t) then Motion(1.0, 0.0, 0.0) else if c <= 0.0 then AtRest else OnSegment(t, j, k, c);
    Sample(c, x.s, x.v, x.a, Jerks(j)[k])
  }

  class SCurveProfile {
    var timing: Timing
    var totalTime: real
    var dt: real
    var jMax: real
    var sampleCount: nat
    const segmentStartTime: array<real>
    const segmentEndTime: array<real>
    const sStart: array<real>
    const vStart: array<real>
    const aStart: array<real>
    const segmentJerk: array<real>
    ghost var Repr: set<object>

    ghost function Tables(): set<object> {
      {segmentStartTime, segmentEndTime, sStart, vStart, aStart, segmentJerk}
    }

    ghost predicate Shape() {
      && segmentStartTime.Length == SEGMENTS && segmentEndTime.Length == SEGMENTS
      && sStart.Length == SEGMENTS && vStart.Length == SEGMENTS && aStart.Length == SEGMENTS
      && segmentJerk.Length == SEGMENTS
      && segmentStartTime !in {segmentEndTime, sStart, vStart, aStart, segmentJerk}
      && segmentEndTime !in {sStart, vStart, aStart, segmentJerk}
      && sStart !in {vStart, aStart, segmentJerk}
      && vStart !in {aStart, segmentJerk} && aStart != segmentJerk
    }

    /** The first `n` rows of the precomputed tables describe the segments. */
    ghost predicate Rows(t: Timing, j: real, n: nat)
      requires Shape() && n <= SEGMENTS
      reads Tables()
    {
      && (forall k: nat :: k < n ==> segmentStartTime[k] == StartTime(t, k))
      && (forall k: nat :: k < n ==> segmentEndTime[k] == StartTime(t, k + 1))
      && (forall k: nat :: k < n ==> sStart[k] == StartMotion(t, j, k).s)
      && (forall k: nat :: k < n ==> vStart[k] == StartMotion(t, j, k).v)
      && (forall k: nat :: k < n ==> aStart[k] == StartMotion(t, j, k).a)
      && (forall k: nat :: k < n ==> segmentJerk[k] == Jerks(j)[k])
    }

    /** Either nothing has been planned, or every field describes one profile. */
    ghost predicate Valid()
      reads this, Repr
    {
      && Shape() && Repr == {this} + Tables()
      && (sampleCount > 0 ==>
            && dt > 0.0 && totalTime > 0.0
            && totalTime == TotalTime(timing)
            && IsSampleCount(sampleCount, totalTime, dt)
            && Rows(timing, jMax, SEGMENTS))
    }

    constructor ()
      ensures Valid() && sampleCount == 0 && fresh(Repr)
    {
      timing := Timing(0.0, 0.0, 0.0, 0.0, 0.0);
      totalTime, dt, jMax, sampleCount := 0.0, 0.0, 0.0, 0;
      segmentStartTime := new real[SEGMENTS];
      segmentEndTime := new real[SEGMENTS];
      sStart := new real[SEGMENTS];
      vStart := new real[SEGMENTS];
      aStart := new real[SEGMENTS];
      segmentJerk := new real[SEGMENTS];
      Repr := {this, segmentStartTime, segmentEndTime, sStart, vStart, aStart, segmentJerk};
    }

    method FillTables(t: Timing, j: real)
      requires Shape()
      modifies Tables()
      ensures Rows(t, j, SEGMENTS)
    {
      hide Advance, StartMotion, StartTime, Durations, Jerks;
      Origin(t, j);
      var d, js := Durations(t), Jerks(j);
      var currentTime, current := 0.0, AtRest;
      for k := 0 to SEGMENTS
        invariant Rows(t, j, k)
        invariant currentTime == StartTime(t, k) && current == StartMotion(t, j, k)
      {
        Unfold(t, j, k);
        segmentStartTime[k], sStart[k], vStart[k], aStart[k] := currentTime, current.s, current.v, current.a;
        segmentJerk[k] := js[k];
        current := Advance(current, js[k], d[k]);
        currentTime := currentTime + d[k];
        segmentEndTime[k] := currentTime;
      }
    }

    method Init(m: MathLib, vMax: real, aMax: real, jMax: real, dt: real) returns (ok: bool)
      requires Valid() && m.SqrtLaw() && m.Pow23Law()
      modifies Repr
      ensures Valid() && Repr == old(Repr)
      ensures ok <==> vMax > 0.0 && aMax > 0.0 && jMax > 0.0 && dt > 0.0
      ensures ok ==> sampleCount > 0 && timing == SelectTiming(m, vMax, aMax, jMax)
      ensures ok ==> this.jMax == jMax && this.dt == dt
      ensures ok ==> IsSampleCount(sampleCount, TotalTime(timing), dt)
      ensures !ok ==> unchanged(Repr)
    {
      if vMax <= 0.0 || aMax <= 0.0 || jMax <= 0.0 || dt <= 0.0 {
        return false;
      }
      var t := SelectTiming(m, vMax, aMax, jMax);
      var total := SumDurations(t);
      SelectedPeaks(m, vMax, aMax, jMax);
      FillTables(t, jMax);
      var n := CountSamples(total, dt);
      timing, totalTime, this.dt, this.jMax, sampleCount := t, total, dt, jMax, n;
      return true;
    }

    /** The time of one sample; an index past the end is refused. */
    method SampleTimeAt(index: nat) returns (ok: bool, time: real)
      requires Valid()
      ensures ok <==> index < sampleCount
      ensures ok ==> time == SampleTime(sampleCount, TotalTime(timing), dt, index)
    {
      if index >= sampleCount {
        return false, 0.0;
      }
      if index == sampleCount - 1 {
        return true, totalTime;
      }
      return true, index as real * dt;
    }

    method FindSegment(t: real) returns (index: nat)
      requires Valid() && sampleCount > 0
      ensures index == Lookup(timing, t, LOOKUP_SLACK, 0)
    {
      index := SEGMENTS - 1;
      for k := 0 to SEGMENTS
        invariant index == SEGMENTS - 1
        invariant Lookup(timing, t, LOOKUP_SLACK, 0) == if k < SEGMENTS then Lookup(timing, t, LOOKUP_SLACK, k)
                  else index
      {
        if t <= segmentEndTime[k] + LOOKUP_SLACK {
          return k;
        }
      }
    }

    method Evaluate(time: real) returns (ok: bool, sample: Sample)
      requires Valid()
      ensures ok <==> sampleCount > 0
      ensures ok ==> sample == Evaluated(timing, jMax, time, LOOKUP_SLACK)
    {
      hide Advance, Lookup;
      if sampleCount == 0 {
        return false, Sample(0.0, 0.0, 0.0, 0.0, 0.0);
      }
      var t := time;
      if t < 0.0 {
        t := 0.0;
      }
      if t > totalTime {
        t := totalTime;
      }
      var index := FindSegment(t);
      var tau, j := t - segmentStartTime[index], segmentJerk[index];
      var motion := Advance(Motion(sStart[index], vStart[index], aStart[index]), j, tau);
      assert motion == OnSegment(timing, jMax, index, t);
      if t <= 0.0 {
        motion := AtRest;
      }
      if t >= totalTime {
        motion := Motion(1.0, 0.0, 0.0);
      }
      return true, Sample(t, motion.s, motion.v, motion.a, j);
    }

    method EvaluateIndex(index: nat) returns (ok: bool, sample: Sample)
      requires Valid()
      ensures ok <==> index < sampleCount
      ensures ok ==> sample == Evaluated(timing, jMax, SampleTime(sampleCount, TotalTime(timing), dt, index),
              LOOKUP_SLACK)
    {
      hide Evaluated, TotalTime, SampleTime;
      var timeOk, time := SampleTimeAt(index);
      if !timeOk {
        return false, Sample(0.0, 0.0, 0.0, 0.0, 0.0);
      }
      ok, sample := Evaluate(time);
    }
  }

  method SumDurations(t: Timing) returns (total: real)
    ensures total == TotalTime(t)
  {
    var d := Durations(t);
    total := 0.0;
    for k := 0 to SEGMENTS
      invariant total == StartTime(t, k)
    {
      total := total + d[k];
    }
  }

  // ---- what the evaluator delivers ----

  /** A sample keeps the requested limits up to what jerk can do within the lookup slack. */
  ghost predicate SampleInLimits(e: Sample, vMax: real, aMax: real, jMax: real, eps: real) {
    && -2.0 * JerkToPosition(jMax, eps) <= e.s <= 1.0 + 2.0 * JerkToPosition(jMax, eps)
    && -2.0 * JerkToVelocity(jMax, eps) <= e.sDot <= vMax + 2.0 * JerkToVelocity(jMax, eps)
    && Abs(e.sDDot) <= aMax + 2.0 * JerkToAcceleration(jMax, eps)
    && Abs(e.sDDDot) <= jMax
  }

  lemma CloseToItself(x: Motion, eps: real, j: real)
    requires j > 0.0 && eps >= 0.0
    ensures CloseTo(x, x, eps, j)
  {
    JerkMonotone(j, 0.0, eps);
  }

  /** The tolerance and the forced end points move a sample from the exact motion by at most the jerk terms. */
  lemma EvaluatedNearExact(t: Timing, j: real, time: real, eps: real)
    requires Balanced(t, j) && j > 0.0 && eps >= 0.0
    ensures var e := Evaluated(t, j, time, eps);
            CloseTo(Motion(e.s, e.sDot, e.sDDot), Exact(t, j, Clamp(t, time)), eps, j)
  {
    hide Exact, TotalTime, OnSegment, Lookup, CloseTo;
    var c := Clamp(t, time);
    ExactEnds(t, j);
    if c <= 0.0 || c >= TotalTime(t) {
      CloseToItself(Exact(t, j, c), eps, j);
    } else {
      LookupClose(t, j, c, eps);
    }
  }

  /** Without tolerance the forced end points change nothing. */
  lemma ForcedEndsChangeNothing(t: Timing, j: real, time: real)
    requires Balanced(t, j) && j > 0.0
    ensures var e := Evaluated(t, j, time, 0.0); Motion(e.s, e.sDot, e.sDDot) == Exact(t, j, Clamp(t, time))
  {
    ExactEnds(t, j);
  }

  lemma EvaluatedJerk(t: Timing, j: real, time: real, eps: real)
    requires j > 0.0
    ensures Abs(Evaluated(t, j, time, eps).sDDDot) <= j
  {}

  lemma SelectedPeaks(m: MathLib, vMax: real, aMax: real, jMax: real)
    requires m.SqrtLaw() && m.Pow23Law() && ValidRequest(vMax, aMax, jMax)
    ensures var t := SelectTiming(m, vMax, aMax, jMax);
            Balanced(t, jMax) && 0.0 < t.vPeak <= vMax && 0.0 < t.aPeak <= aMax && TotalTime(t) > 0.0
  {
    TimingFeasible(m, vMax, aMax, jMax);
    ExactEnds(SelectTiming(m, vMax, aMax, jMax), jMax);
  }

  lemma EvaluatedInLimits(m: MathLib, vMax: real, aMax: real, jMax: real, time: real, eps: real)
    requires m.SqrtLaw() && m.Pow23Law() && ValidRequest(vMax, aMax, jMax) && eps >= 0.0
    ensures SampleInLimits(Evaluated(SelectTiming(m, vMax, aMax, jMax), jMax, time, eps), vMax, aMax, jMax, eps)
  {
    hide Balanced, Evaluated, Exact, SelectTiming, TotalTime, JerkToPosition, JerkToVelocity, JerkToAcceleration;
    var t := SelectTiming(m, vMax, aMax, jMax);
    SelectedPeaks(m, vMax, aMax, jMax);
    EvaluatedJerk(t, jMax, time, eps);
    EvaluatedNearExact(t, jMax, time, eps);
    ExactInLimits(t, jMax, Clamp(t, time));
  }

  lemma ProgressOfMotions(e1: Motion, e2: Motion, x1: Motion, x2: Motion, dt: real, t: Timing, j: real, eps: real)
    requires Within(x1, x2, dt, t.vPeak, t.aPeak, j) && CloseTo(e1, x1, eps, j) && CloseTo(e2, x2, eps, j)
    ensures -4.0 * JerkToPosition(j, eps) <= e2.s - e1.s <= t.vPeak * dt + 4.0 * JerkToPosition(j, eps)
  {}

  lemma SlowerThan(v: real, vMax: real, dt: real, bound: real)
    requires 0.0 < v <= vMax && 0.0 <= dt <= bound
    ensures v * dt <= vMax * bound
  {
    ScaleLe(dt, v, vMax);
    ScaleLe(vMax, dt, bound);
  }

  /** Between any two times the path parameter advances at most at `vMax`, up to the slack. */
  lemma EvaluatedProgress(m: MathLib, vMax: real, aMax: real, jMax: real, t1: real, t2: real, eps: real)
    requires m.SqrtLaw() && m.Pow23Law() && ValidRequest(vMax, aMax, jMax) && eps >= 0.0 && t1 <= t2
    ensures var t := SelectTiming(m, vMax, aMax, jMax);
            var e1, e2 := Evaluated(t, jMax, t1, eps), Evaluated(t, jMax, t2, eps);
            -4.0 * JerkToPosition(jMax, eps) <= e2.s - e1.s <= vMax * (t2 - t1) + 4.0 * JerkToPosition(jMax, eps)
  {
    hide Balanced, Evaluated, SelectTiming, TotalTime, JerkToPosition;
    var t := SelectTiming(m, vMax, aMax, jMax);
    SelectedPeaks(m, vMax, aMax, jMax);
    TimingProgress(t, jMax, t1, t2, eps);
    SlowerThan(t.vPeak, vMax, Clamp(t, t2) - Clamp(t, t1), t2 - t1);
  }

  lemma TimingProgress(t: Timing, j: real, t1: real, t2: real, eps: real)
    requires Balanced(t, j) && j > 0.0 && eps >= 0.0 && t1 <= t2
    ensures var e1, e2 := Evaluated(t, j, t1, eps), Evaluated(t, j, t2, eps);
            -4.0 * JerkToPosition(j, eps) <= e2.s - e1.s
         <= t.vPeak * (Clamp(t, t2) - Clamp(t, t1)) + 4.0 * JerkToPosition(j, eps)
  {
    hide Balanced, Evaluated, Exact, TotalTime, Within, CloseTo, JerkToPosition;
    var c1, c2 := Clamp(t, t1), Clamp(t, t2);
    var e1, e2 := Evaluated(t, j, t1, eps), Evaluated(t, j, t2, eps);
    ExactEnds(t, j);
    EvaluatedNearExact(t, j, t1, eps);
    EvaluatedNearExact(t, j, t2, eps);
    ExactProgress(t, j, c1, c2);
    ProgressOfMotions(Motion(e1.s, e1.sDot, e1.sDDot), Motion(e2.s, e2.sDot, e2.sDDot),
                      Exact(t, j, c1), Exact(t, j, c2), c2 - c1, t, j, eps);
  }
}
