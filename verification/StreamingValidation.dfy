/** Validation of a planned line by replaying its stream, before the same stream is executed. */
module StreamingValidation {
  import opened RealMath
  import opened LineStream
  import LV = LimitValidation
  import P = SCurveProfile
  import SR = StreamingRuns

  /** Solutions always have one value per joint. */
  ghost predicate SixJoints(robot: Robot) {
    forall pose, seed :: |robot.solve(pose, seed).q| == LV.DOF
  }

  ghost function TimedAt(m: MathLib, robot: Robot, p: Plan, k: nat): LV.Timed
    requires |p.resampled| == |p.knots| && k < p.sampleCount
  {
    var x := SampleAt(m, robot, p, k);
    LV.Timed(x.profile.t, x.q)
  }

  /** The first `n` samples the stream of a plan delivers. */
  ghost function Trace(m: MathLib, robot: Robot, p: Plan, n: nat): (s: seq<LV.Timed>)
    requires |p.resampled| == |p.knots| && n <= p.sampleCount
    ensures |s| == n
  {
    seq(n, k requires 0 <= k < n => TimedAt(m, robot, p, k))
  }

  lemma TraceSamples(m: MathLib, robot: Robot, p: Plan, n: nat)
    requires |p.resampled| == |p.knots| && n <= p.sampleCount && SixJoints(robot)
    ensures LV.Samples(Trace(m, robot, p, n))
  {
    forall k | 0 <= k < n
      ensures |Trace(m, robot, p, n)[k].q| == LV.DOF
    {
      assert SampleAt(m, robot, p, k).q == SolveAt(m, robot, p, k).q;
    }
  }

  lemma TraceNext(m: MathLib, robot: Robot, p: Plan, n: nat)
    requires |p.resampled| == |p.knots| && n < p.sampleCount
    ensures Trace(m, robot, p, n + 1) == Trace(m, robot, p, n) + [TimedAt(m, robot, p, n)]
  {
    hide TimedAt;
  }

  /** Every sample of the plan can be solved and keeps the joint limits. */
  ghost predicate Checked(m: MathLib, robot: Robot, p: Plan, limits: LV.Limits)
    requires |p.resampled| == |p.knots| && SixJoints(robot) && limits.Valid()
  {
    TraceSamples(m, robot, p, p.sampleCount);
    var s := Trace(m, robot, p, p.sampleCount);
    && p.sampleCount > 0
    && (forall k :: 0 <= k < p.sampleCount ==> SolveAt(m, robot, p, k).ok)
    && LV.PositionsOk(s, limits, |s|) && LV.VelocitiesOk(s, limits, |s|)
  }

  /** The first `n` samples of the stream were delivered into the validator. */
  ghost predicate Replayed(stream: SingleLineStream, v: LV.StreamingValidator, p: Plan, n: nat)
    requires |p.resampled| == |p.knots|
    reads stream, stream.profile, stream.profile.Repr, stream.arcGeometry, stream.lArc, v, v.peak, v.maxStep
  {
    && stream.Valid() && stream.initialized && stream.ThePlan() == p && SixJoints(stream.robot)
    && v.Valid() && v.peak !in stream.profile.Repr && v.maxStep !in stream.profile.Repr && v !in stream.profile.Repr
    && v.peak != stream.lArc && v.maxStep != stream.lArc
    && n == stream.nextSampleIndex && n <= p.sampleCount && v.seen == Trace(stream.m, stream.robot, p, n)
    && forall k :: 0 <= k < n ==> SolveAt(stream.m, stream.robot, p, k).ok
  }

  /** Moves one sample from the stream to the validator. */
  method ReplayOne(stream: SingleLineStream, v: LV.StreamingValidator, ghost p: Plan, ghost n: nat) returns (ok: bool)
    requires |p.resampled| == |p.knots| && Replayed(stream, v, p, n)
    modifies stream, v, v.peak, v.maxStep
    ensures stream.profile == old(stream.profile)
    ensures Replayed(stream, v, p, if ok then n + 1 else n)
    ensures ok <==> n < p.sampleCount && SolveAt(stream.m, stream.robot, p, n).ok
    ensures !ok ==> (stream.finished <==> n == p.sampleCount)
  {
    hide SampleAt, SolveAt, TimedAt, IsPlan, Delivered, Trace, LV.StreamingValidator.Valid, P.SCurveProfile.Valid;
    var sample;
    ok, sample := stream.Next();
    if ok {
      TraceNext(stream.m, stream.robot, p, n);
      SampleTimed(stream.m, stream.robot, p, n);
      v.Observe(LV.Timed(sample.profile.t, sample.q));
    }
  }

  /** Some sample of the plan has no solution. */
  ghost predicate SomeUnsolved(m: MathLib, robot: Robot, p: Plan)
    requires |p.resampled| == |p.knots|
  {
    exists k :: 0 <= k < p.sampleCount && !SolveAt(m, robot, p, k).ok
  }

  /** Delivers the whole stream into the validator, unless cancelled or a solve fails. */
  method ReplayLine(stream: SingleLineStream, v: LV.StreamingValidator, cancelled: nat -> bool, ghost p: Plan)
    returns (complete: bool, generated: nat)
    requires |p.resampled| == |p.knots| && Replayed(stream, v, p, 0)
    modifies stream, v, v.peak, v.maxStep
    ensures stream.profile == old(stream.profile)
    ensures generated <= p.sampleCount && Replayed(stream, v, p, generated)
    ensures complete ==> generated == p.sampleCount
    ensures !complete ==> (exists i :: cancelled(i)) || SomeUnsolved(stream.m, stream.robot, p)
  {
    hide Replayed, SolveAt;
    generated := 0;
    while true
      invariant Replayed(stream, v, p, generated) && generated <= p.sampleCount && stream.profile == old(stream.profile)
      decreases p.sampleCount - generated
    {
      if cancelled(generated) {
        return false, generated;
      }
      var ok := ReplayOne(stream, v, p, generated);
      if !ok {
        return stream.finished, generated;
      }
      generated := generated + 1;
    }
  }

  lemma SampleTimed(m: MathLib, robot: Robot, p: Plan, k: nat)
    requires |p.resampled| == |p.knots| && k < p.sampleCount && SixJoints(robot)
    ensures var x := SampleAt(m, robot, p, k); |x.q| == LV.DOF && TimedAt(m, robot, p, k) == LV.Timed(x.profile.t, x.q)
  {
    assert SampleAt(m, robot, p, k).q == SolveAt(m, robot, p, k).q;
  }

  /**
   * Success means that every sample this request can ever deliver was solved and checked;
   * without a cancellation nothing else makes the validation fail.
   */
  method ValidateLine(stream: SingleLineStream, r: Request, limits: LV.Limits, cancelled: nat -> bool)
    returns (ok: bool, v: LV.StreamingValidator)
    requires stream.Valid() && SixJoints(stream.robot) && limits.Valid()
    modifies stream, stream.rawGeometry, stream.arcGeometry, stream.lOriginal, stream.lArc
    ensures stream.Valid()
    ensures stream.initialized <==> Expected(stream.m, r, stream.arcGeometry.Length) == Ok
    ensures stream.initialized ==> stream.request == r && IsPlan(stream.m, r, stream.ThePlan())
    ensures ok ==> stream.initialized && Checked(stream.m, stream.robot, stream.ThePlan(), limits)
    ensures stream.initialized && (forall i :: !cancelled(i)) ==>
            (ok <==> Checked(stream.m, stream.robot, stream.ThePlan(), limits))
  {
    hide IsPlan, Delivered, SolveAt, TimedAt, Expected, Checked;
    var ready := stream.Init(r);
    v := new LV.StreamingValidator(limits);
    if !ready {
      return false, v;
    }
    ok := CheckReady(stream, v, cancelled);
  }

  method CheckReady(stream: SingleLineStream, v: LV.StreamingValidator, cancelled: nat -> bool) returns (ok: bool)
    requires stream.Valid() && stream.initialized && stream.nextSampleIndex == 0 && SixJoints(stream.robot)
    requires v.Valid() && v.seen == [] && v.peak !in stream.profile.Repr && v.maxStep !in stream.profile.Repr
             && v !in stream.profile.Repr
    requires v.peak != stream.lArc && v.maxStep != stream.lArc
    modifies stream, v, v.peak, v.maxStep
    ensures stream.Valid() && stream.initialized && stream.ThePlan() == old(stream.ThePlan())
            && stream.request == old(stream.request)
    ensures ok ==> Checked(stream.m, stream.robot, stream.ThePlan(), v.limits)
    ensures (forall i :: !cancelled(i)) ==> (ok <==> Checked(stream.m, stream.robot, stream.ThePlan(), v.limits))
  {
    hide IsPlan, Delivered, SolveAt, TimedAt, LV.PositionsOk, LV.VelocitiesOk, LV.PeakTo, LV.StepTo,
         LV.StreamingValidator.Valid;
    ghost var p := stream.ThePlan();
    var complete, generated := ReplayLine(stream, v, cancelled, p);
    if !complete || generated != stream.profile.sampleCount {
      return false;
    }
    v.Finish();
    ok := stream.profile.sampleCount > 0 && v.positionPass && v.velocityPass;
  }

  /** A later execution of the same request delivers the samples that were checked. */
  lemma ExecutedWasChecked(m: MathLib, robot: Robot, r: Request, p: Plan, executed: Plan, limits: LV.Limits)
    requires IsPlan(m, r, p) && IsPlan(m, r, executed) && SixJoints(robot) && limits.Valid()
    requires Checked(m, robot, p, limits)
    ensures Checked(m, robot, executed, limits)
  {
    hide Checked;
    PlanDetermined(m, r, p, executed);
  }

  // ---- what reaches the drives was checked ----

  /** `plan` says what the stream of the line plan `p` delivers and whether that keeps the limits. */
  ghost predicate Delivers(m: MathLib, robot: Robot, limits: LV.Limits, p: Plan, plan: SR.Plan)
    requires SixJoints(robot) && limits.Valid()
  {
    && |p.resampled| == |p.knots| && |plan.samples| <= plan.total == p.sampleCount && p.sampleCount > 0
    && (forall k :: 0 <= k < |plan.samples| ==>
          SolveAt(m, robot, p, k).ok && plan.samples[k] == SampleAt(m, robot, p, k).q)
    && (|plan.samples| < plan.total ==> !SolveAt(m, robot, p, |plan.samples|).ok)
    && (|plan.samples| == plan.total ==> (plan.withinLimits <==> KeepsLimits(m, robot, p, limits)))
  }

  ghost predicate KeepsLimits(m: MathLib, robot: Robot, p: Plan, limits: LV.Limits)
    requires |p.resampled| == |p.knots| && SixJoints(robot) && limits.Valid()
  {
    TraceSamples(m, robot, p, p.sampleCount);
    var s := Trace(m, robot, p, p.sampleCount);
    LV.PositionsOk(s, limits, |s|) && LV.VelocitiesOk(s, limits, |s|)
  }

  /** `plan` is the stream of a line request on buffers of the given capacity. */
  ghost predicate StreamOf(m: MathLib, robot: Robot, limits: LV.Limits, capacity: nat, r: Request, plan: SR.Plan)
    requires m.SqrtLaw() && SixJoints(robot) && limits.Valid()
  {
    && (plan.starts <==> Expected(m, r, capacity) == Ok)
    && (plan.starts ==> exists p :: IsPlan(m, r, p) && Delivers(m, robot, limits, p, plan))
  }

  /** The verdict that the drives' protocol works with is the one about the samples of the line. */
  lemma PassesIsChecked(m: MathLib, robot: Robot, limits: LV.Limits, p: Plan, plan: SR.Plan)
    requires SixJoints(robot) && limits.Valid() && Delivers(m, robot, limits, p, plan) && plan.starts
    ensures plan.Passes() <==> Checked(m, robot, p, limits)
  {
    hide SampleAt, SolveAt, LV.PositionsOk, LV.VelocitiesOk, Trace;
  }

  /** Any line plan of the request decides the verdict on its stream. */
  lemma VerdictOf(m: MathLib, robot: Robot, limits: LV.Limits, capacity: nat, r: Request, p: Plan, plan: SR.Plan)
    requires m.SqrtLaw() && SixJoints(robot) && limits.Valid() && StreamOf(m, robot, limits, capacity, r, plan)
    requires IsPlan(m, r, p) && |p.resampled| == |p.knots|
    ensures plan.Passes() <==> Expected(m, r, capacity) == Ok && Checked(m, robot, p, limits)
  {
    hide IsPlan, Delivers, Checked, Expected;
    if plan.starts {
      var p' :| IsPlan(m, r, p') && Delivers(m, robot, limits, p', plan);
      PlanDetermined(m, r, p, p');
      PassesIsChecked(m, robot, limits, p, plan);
    }
  }

  /** What validation reports about a request is the verdict on its stream, unless it is cut short. */
  method ValidateStream(stream: SingleLineStream, r: Request, limits: LV.Limits, cancelled: nat -> bool,
      ghost plan: SR.Plan) returns (ok: bool)
    requires stream.Valid() && SixJoints(stream.robot) && limits.Valid() && stream.m.SqrtLaw()
    requires StreamOf(stream.m, stream.robot, limits, stream.arcGeometry.Length, r, plan)
    modifies stream, stream.rawGeometry, stream.arcGeometry, stream.lOriginal, stream.lArc
    ensures stream.Valid()
    ensures ok ==> plan.Passes()
    ensures (forall i :: !cancelled(i)) ==> (ok <==> plan.Passes())
  {
    hide IsPlan, Checked, Expected, StreamOf;
    var v;
    ok, v := ValidateLine(stream, r, limits, cancelled);
    if stream.initialized {
      PlanShape(stream.m, r, stream.ThePlan());
      VerdictOf(stream.m, stream.robot, limits, stream.arcGeometry.Length, r, stream.ThePlan(), plan);
    } else {
      NotStarted(stream.m, stream.robot, limits, stream.arcGeometry.Length, r, plan);
    }
  }

  lemma PlanShape(m: MathLib, r: Request, p: Plan)
    requires IsPlan(m, r, p)
    ensures |p.resampled| == |p.knots|
  {}

  lemma NotStarted(m: MathLib, robot: Robot, limits: LV.Limits, capacity: nat, r: Request, plan: SR.Plan)
    requires m.SqrtLaw() && SixJoints(robot) && limits.Valid() && StreamOf(m, robot, limits, capacity, r, plan)
    requires Expected(m, r, capacity) != Ok
    ensures !plan.Passes()
  {
    hide Expected;
  }

  ghost predicate InJointLimits(q: seq<real>, limits: LV.Limits)
    requires limits.Valid()
  {
    |q| == LV.DOF && forall j :: 0 <= j < LV.DOF ==> limits.qMin[j] <= q[j] <= limits.qMax[j]
  }

  lemma CheckedInLimits(m: MathLib, robot: Robot, limits: LV.Limits, p: Plan, k: nat)
    requires |p.resampled| == |p.knots| && SixJoints(robot) && limits.Valid() && Checked(m, robot, p, limits)
             && k < p.sampleCount
    ensures InJointLimits(SampleAt(m, robot, p, k).q, limits)
  {
    hide SampleAt, SolveAt, LV.VelocitiesOk;
    TraceSamples(m, robot, p, p.sampleCount);
    SampleTimed(m, robot, p, k);
    var s := Trace(m, robot, p, p.sampleCount);
    assert s[k].q == SampleAt(m, robot, p, k).q;
    assert forall j :: 0 <= j < LV.DOF ==> !LV.Outside(s[k].q[j], limits.qMin[j], limits.qMax[j]);
  }

  /** `plan` is the stream of some line request. */
  ghost predicate LinePlan(m: MathLib, robot: Robot, limits: LV.Limits, capacity: nat, plan: SR.Plan)
    requires m.SqrtLaw() && SixJoints(robot) && limits.Valid()
  {
    exists r :: StreamOf(m, robot, limits, capacity, r, plan)
  }

  /**
   * In every run of planner and drives in which all plans are line requests, everything committed to
   * the drives is, sample by sample, a stream that was checked as a whole, and lies within the joint
   * limits.
   */
  lemma CommittedWasChecked(m: MathLib, robot: Robot, limits: LV.Limits, capacity: nat, steps: seq<SR.Step>)
    requires m.SqrtLaw() && SixJoints(robot) && limits.Valid() && SR.ValidSteps(steps)
    requires SR.SentPlans(plan => LinePlan(m, robot, limits, capacity, plan), steps)
    ensures var s := SR.Run(SR.Start, steps);
            s.committed != [] ==>
              exists r, p :: IsPlan(m, r, p) && |p.resampled| == |p.knots| && Checked(m, robot, p, limits)
                && Sends(m, robot, limits, p, s.committed)
  {
    hide SR.Run, SampleAt, InJointLimits, Checked, IsPlan, SolveAt, Expected;
    SR.CommittedWasSent(plan => LinePlan(m, robot, limits, capacity, plan), steps);
    SR.CommittedInEveryRun(steps);
    var s := SR.Run(SR.Start, steps);
    if s.committed != [] {
      var r :| StreamOf(m, robot, limits, capacity, r, s.plan);
      var p :| IsPlan(m, r, p) && Delivers(m, robot, limits, p, s.plan);
      PassesIsChecked(m, robot, limits, p, s.plan);
      forall k | 0 <= k < |s.committed|
        ensures s.committed[k] == SampleAt(m, robot, p, k).q && InJointLimits(s.committed[k], limits)
      {
        CheckedInLimits(m, robot, limits, p, k);
        assert s.committed[k] == s.plan.samples[k];
      }
      assert Sends(m, robot, limits, p, s.committed);
    }
  }

  /** The first samples of the line, each within the joint limits. */
  ghost predicate Sends(m: MathLib, robot: Robot, limits: LV.Limits, p: Plan, committed: seq<Joints>)
    requires |p.resampled| == |p.knots| && limits.Valid()
  {
    |committed| <= p.sampleCount
    && forall k :: 0 <= k < |committed| ==>
         committed[k] == SampleAt(m, robot, p, k).q && InJointLimits(committed[k], limits)
  }
}
