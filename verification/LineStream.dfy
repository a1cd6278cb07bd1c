/** The incremental straight-line pipeline: geometry, time scaling, one inverse-kinematics solve per sample. */
module LineStream {
  import opened RealMath
  import opened Vectors
  import opened Quaternions
  import opened SampleGrid
  import opened ArcLength
  import opened ArcLengthBound
  import opened SCurveTiming
  import opened SCurveMotion
  import P = SCurveProfile

  const MIN_LENGTH := 0.000000000000001

  datatype Status = Ok | Finished | InvalidArgument | GeometryFailed | ProfileFailed | IkFailed

  type Joints = seq<real>

  datatype Pose = Pose(position: Vec3, rotation: Mat3)

  datatype IkResult = IkResult(ok: bool, q: Joints, iterations: nat)

  /** The robot as the stream sees it: the solver, and the pose error of a configuration. */
  datatype Robot = Robot(solve: (Pose, Joints) -> IkResult, positionError: (Pose, Joints) -> real,
      orientationError: (Pose, Joints) -> real)

  datatype Request = Request(
    qSeed: Joints,
    startPosition: Vec3, startOrientation: Quat,
    endPosition: Vec3, endOrientation: Quat,
    points: nat, spacing: real,
    speed: real, accel: real, jerk: real, dt: real)

  datatype LineSample = LineSample(
    index: nat, profile: P.Sample, arcPosition: real, tcpSpeed: real,
    pDesired: Vec3, quatDesired: Quat, q: Joints,
    iterations: nat, positionError: real, orientationError: real)

  predicate ArgumentsOk(r: Request) {
    r.points >= 2 && r.spacing > 0.0 && r.speed > 0.0 && r.accel > 0.0 && r.jerk > 0.0 && r.dt > 0.0
  }

  // ---- the straight line ----

  function WaypointAt(a: Vec3, b: Vec3, n: nat, i: nat): Vec3
    requires n >= 2
  {
    Lerp(a, b, i as real / (n - 1) as real)
  }

  function Waypoints(a: Vec3, b: Vec3, n: nat): (path: seq<Vec3>)
    requires n >= 2
    ensures |path| == n
  {
    seq(n, i requires 0 <= i < n => WaypointAt(a, b, n, i))
  }

  method GenerateWaypoints(start: Vec3, end: Vec3, n: nat, waypoints: array<Vec3>) returns (ok: bool)
    requires n <= waypoints.Length
    modifies waypoints
    ensures ok <==> n >= 2
    ensures ok ==> waypoints[..n] == Waypoints(start, end, n)
  {
    hide Lerp;
    if n < 2 {
      return false;
    }
    for i := 0 to n
      invariant forall k :: 0 <= k < i ==> waypoints[k] == WaypointAt(start, end, n, k)
    {
      var s := i as real / (n - 1) as real;
      waypoints[i] := Lerp(start, end, s);
    }
    return true;
  }

  // ---- what a request plans ----

  /** Everything the stream computes once; sample `k` depends on nothing else but the seed. */
  datatype Plan = Plan(
    request: Request, length: real,
    resampled: seq<Vec3>, knots: seq<real>,
    timing: Timing, jMax: real, sampleCount: nat)

  ghost predicate IsPlan(m: MathLib, r: Request, p: Plan) {
    && ArgumentsOk(r) && p.request == r
    && p.length > MIN_LENGTH && |p.resampled| == |p.knots|
    && p.jMax == r.jerk / p.length
    && p.timing == SelectTiming(m, r.speed / p.length, r.accel / p.length, p.jMax)
    && TotalTime(p.timing) > 0.0
    && IsSampleCount(p.sampleCount, TotalTime(p.timing), r.dt)
    && Parameterized(m, Waypoints(r.startPosition, r.endPosition, r.points), r.spacing,
                     ArcLengthInfo(|p.knots|, p.length),
                     CumulativeAll(m, Waypoints(r.startPosition, r.endPosition, r.points)), p.knots, p.resampled)
  }

  function ProfileAt(p: Plan, k: nat): P.Sample
    requires k < p.sampleCount
  {
    P.Evaluated(p.timing, p.jMax, SampleTime(p.sampleCount, TotalTime(p.timing), p.request.dt, k), P.LOOKUP_SLACK)
  }

  function ArcAt(p: Plan, k: nat): real
    requires k < p.sampleCount
  {
    Scaled(p.length, ProfileAt(p, k).s)
  }

  function Scaled(length: real, x: real): real { length * x }

  function PositionAt(p: Plan, k: nat): Vec3
    requires k < p.sampleCount && |p.resampled| == |p.knots|
  {
    Interpolated(p.resampled, p.knots, ArcAt(p, k))
  }

  function SpeedAt(p: Plan, k: nat): real
    requires k < p.sampleCount
  {
    Scaled(p.length, ProfileAt(p, k).sDot)
  }

  function OrientationAt(m: MathLib, p: Plan, k: nat): Quat
    requires k < p.sampleCount
  {
    Slerp(m, p.request.startOrientation, p.request.endOrientation, ProfileAt(p, k).s)
  }

  function PoseAt(m: MathLib, p: Plan, k: nat): Pose
    requires k < p.sampleCount && |p.resampled| == |p.knots|
  {
    Pose(PositionAt(p, k), QuatToRotm(m, OrientationAt(m, p, k)))
  }

  /** The solve of sample `k`, seeded by the solution of the sample before it. */
  function SolveAt(m: MathLib, robot: Robot, p: Plan, k: nat): IkResult
    requires k < p.sampleCount && |p.resampled| == |p.knots|
    decreases k, 1
  {
    robot.solve(PoseAt(m, p, k), SeedAt(m, robot, p, k))
  }

  function SeedAt(m: MathLib, robot: Robot, p: Plan, k: nat): Joints
    requires k <= p.sampleCount && |p.resampled| == |p.knots|
    decreases k, 0
  {
    if k == 0 then p.request.qSeed else SolveAt(m, robot, p, k - 1).q
  }

  function SampleAt(m: MathLib, robot: Robot, p: Plan, k: nat): LineSample
    requires k < p.sampleCount && |p.resampled| == |p.knots|
  {
    var e, pose, ik := ProfileAt(p, k), PoseAt(m, p, k), SolveAt(m, robot, p, k);
    LineSample(k, e, ArcAt(p, k), SpeedAt(p, k), pose.position, OrientationAt(m, p, k), ik.q,
               ik.iterations, robot.positionError(pose, ik.q), robot.orientationError(pose, ik.q))
  }

  /** Running maxima over the samples delivered so far. */
  datatype Peaks = Peaks(tcpSpeed: real, positionError: real, orientationError: real, iterations: nat)

  function Raise(peaks: Peaks, x: LineSample): Peaks {
    Peaks(if x.tcpSpeed > peaks.tcpSpeed then x.tcpSpeed else peaks.tcpSpeed,
          if x.positionError > peaks.positionError then x.positionError else peaks.positionError,
          if x.orientationError > peaks.orientationError then x.orientationError else peaks.orientationError,
          if x.iterations > peaks.iterations then x.iterations else peaks.iterations)
  }

  function PeaksOf(m: MathLib, robot: Robot, p: Plan, k: nat): Peaks
    requires k <= p.sampleCount && |p.resampled| == |p.knots|
  {
    if k == 0 then Peaks(0.0, 0.0, 0.0, 0) else Raise(PeaksOf(m, robot, p, k - 1), SampleAt(m, robot, p, k - 1))
  }

  /** What the stream remembers after delivering the first `next` samples of a plan. */
  ghost predicate Delivered(m: MathLib, robot: Robot, p: Plan, next: nat, seed: Joints, peaks: Peaks)
    requires |p.resampled| == |p.knots| && next <= p.sampleCount
  {
    && seed == SeedAt(m, robot, p, next)
    && peaks == PeaksOf(m, robot, p, next)
    && forall k :: 0 <= k < next ==> SolveAt(m, robot, p, k).ok
  }

  lemma NothingDelivered(m: MathLib, robot: Robot, p: Plan)
    requires |p.resampled| == |p.knots|
    ensures Delivered(m, robot, p, 0, p.request.qSeed, Peaks(0.0, 0.0, 0.0, 0))
  {}

  lemma MakePlan(m: MathLib, r: Request, p: Plan)
    requires ArgumentsOk(r) && p.request == r && p.length > MIN_LENGTH && |p.resampled| == |p.knots|
    requires m.SqrtLaw() && m.Pow23Law()
    requires var j := r.jerk / p.length;
             p.jMax == j && p.timing == SelectTiming(m, r.speed / p.length, r.accel / p.length, j)
    requires IsSampleCount(p.sampleCount, TotalTime(p.timing), r.dt)
    requires var path := Waypoints(r.startPosition, r.endPosition, r.points);
             Parameterized(m, path, r.spacing, ArcLengthInfo(|p.knots|, p.length), CumulativeAll(m, path), p.knots,
                 p.resampled)
    ensures IsPlan(m, r, p)
  {
    hide Parameterized, SelectTiming, IsSampleCount, TotalTime;
    ScaledRequest(r.speed, p.length);
    ScaledRequest(r.accel, p.length);
    ScaledRequest(r.jerk, p.length);
    P.SelectedPeaks(m, r.speed / p.length, r.accel / p.length, r.jerk / p.length);
  }

  /** What the stream computes in one step is the next sample of the plan. */
  lemma StepIsSample(m: MathLib, robot: Robot, p: Plan, k: nat, seed: Joints, peaks: Peaks)
    requires |p.resampled| == |p.knots| && k < p.sampleCount && Delivered(m, robot, p, k, seed, peaks)
    ensures var time := SampleTime(p.sampleCount, TotalTime(p.timing), p.request.dt, k);
            var e := P.Evaluated(p.timing, p.jMax, time, P.LOOKUP_SLACK);
            var quaternion := Slerp(m, p.request.startOrientation, p.request.endOrientation, e.s);
            var position := Interpolated(p.resampled, p.knots, Scaled(p.length, e.s));
            var pose := Pose(position, QuatToRotm(m, quaternion));
            var ik := robot.solve(pose, seed);
            && ik == SolveAt(m, robot, p, k)
            && SampleAt(m, robot, p, k) == LineSample(k, e, Scaled(p.length, e.s), Scaled(p.length, e.sDot), position,
                quaternion, ik.q,
                                                      ik.iterations, robot.positionError(pose, ik.q),
                                                          robot.orientationError(pose, ik.q))
  {
    hide Scaled, SampleTime, TotalTime, P.Evaluated, Slerp, Interpolated, QuatToRotm;
  }

  lemma DeliverNext(m: MathLib, robot: Robot, p: Plan, next: nat, seed: Joints, peaks: Peaks)
    requires |p.resampled| == |p.knots| && next < p.sampleCount
    requires Delivered(m, robot, p, next, seed, peaks) && SolveAt(m, robot, p, next).ok
    ensures var x := SampleAt(m, robot, p, next);
            Delivered(m, robot, p, next + 1, x.q, Raise(peaks, x))
  {
    hide ProfileAt, PoseAt, OrientationAt, Raise;
  }

  class SingleLineStream {
    const m: MathLib
    const robot: Robot
    const rawGeometry: array<Vec3>
    const arcGeometry: array<Vec3>
    const lOriginal: array<real>
    const lArc: array<real>
    var initialized: bool
    var finished: bool
    var status: Status
    var request: Request
    var arcInfo: ArcLengthInfo
    var segmentLength: real
    var profile: P.SCurveProfile
    var nextSampleIndex: nat
    var qSeed: Joints
    var peaks: Peaks

    ghost predicate Buffers() {
      && rawGeometry != arcGeometry && lOriginal != lArc
      && rawGeometry.Length == arcGeometry.Length == lOriginal.Length == lArc.Length
    }

    ghost function ThePlan(): Plan
      requires arcInfo.count <= arcGeometry.Length && arcInfo.count <= lArc.Length
      reads this, profile, arcGeometry, lArc
    {
      Plan(request, segmentLength, arcGeometry[..arcInfo.count], lArc[..arcInfo.count],
           profile.timing, profile.jMax, profile.sampleCount)
    }

    ghost predicate Valid()
      reads this, profile, profile.Repr, arcGeometry, lArc
    {
      && Buffers() && m.SqrtLaw() && m.Pow23Law()
      && (initialized ==>
            && profile.Valid() && this !in profile.Repr && arcGeometry !in profile.Repr && lArc !in profile.Repr
            && arcInfo.count <= arcGeometry.Length
            && IsPlan(m, request, ThePlan())
            && profile.sampleCount > 0 && profile.dt == request.dt
            && nextSampleIndex <= profile.sampleCount
            && (finished <==> nextSampleIndex == profile.sampleCount)
            && Delivered(m, robot, ThePlan(), nextSampleIndex, qSeed, peaks))
    }

    constructor (m: MathLib, robot: Robot, capacity: nat)
      requires m.SqrtLaw() && m.Pow23Law()
      ensures Valid() && !initialized && this.m == m && this.robot == robot && arcGeometry.Length == capacity
    {
      this.m, this.robot := m, robot;
      rawGeometry := new Vec3[capacity](_ => Zero3);
      arcGeometry := new Vec3[capacity](_ => Zero3);
      lOriginal := new real[capacity];
      lArc := new real[capacity];
      initialized, finished, status := false, false, InvalidArgument;
      request := Request([], Zero3, Identity, Zero3, Identity, 0, 0.0, 0.0, 0.0, 0.0, 0.0);
      arcInfo, segmentLength := ArcLengthInfo(0, 0.0), 0.0;
      profile := new P.SCurveProfile();
      nextSampleIndex, qSeed, peaks := 0, [], Peaks(0.0, 0.0, 0.0, 0);
    }

    /** Straight line, then arc-length parameterisation. */
    method PlanGeometry(r: Request) returns (ok: bool, info: ArcLengthInfo)
      requires Buffers() && m.SqrtLaw() && ArgumentsOk(r) && r.points <= arcGeometry.Length
      modifies rawGeometry, arcGeometry, lOriginal, lArc
      ensures ok <==> Fits(m, Waypoints(r.startPosition, r.endPosition, r.points), r.spacing, arcGeometry.Length)
      ensures ok ==> info.count <= arcGeometry.Length && info.totalLength == Distance(m, r.startPosition, r.endPosition)
                     && Parameterized(m, Waypoints(r.startPosition, r.endPosition, r.points), r.spacing, info,
                                      CumulativeAll(m, Waypoints(r.startPosition, r.endPosition, r.points)),
                                      lArc[..info.count], arcGeometry[..info.count])
    {
      hide Interpolated, Distance, IsSampleCount, SampleCount, Lerp;
      var _ := GenerateWaypoints(r.startPosition, r.endPosition, r.points, rawGeometry);
      LineLength(m, r.startPosition, r.endPosition, r.points);
      ok, info := Parameterize(m, rawGeometry, r.points, r.spacing, arcGeometry, lOriginal, lArc);
    }

    /** Time scaling of a path of the given length; it cannot fail on a checked request. */
    method PlanProfile(r: Request, length: real, profile: P.SCurveProfile) returns (ok: bool)
      requires m.SqrtLaw() && m.Pow23Law() && ArgumentsOk(r) && length > MIN_LENGTH && profile.Valid()
      modifies profile.Repr
      ensures ok && profile.Valid() && profile.Repr == old(profile.Repr)
      ensures profile.sampleCount > 0 && profile.dt == r.dt && profile.jMax == r.jerk / length
      ensures profile.timing == SelectTiming(m, r.speed / length, r.accel / length, r.jerk / length)
      ensures IsSampleCount(profile.sampleCount, TotalTime(profile.timing), r.dt)
    {
      hide SelectTiming, TotalTime, IsSampleCount, P.SCurveProfile.Valid;
      ScaledRequest(r.speed, length);
      ScaledRequest(r.accel, length);
      ScaledRequest(r.jerk, length);
      ok := profile.Init(m, r.speed / length, r.accel / length, r.jerk / length, r.dt);
    }

    /** Clears everything a previous motion left behind. */
    method Reset()
      modifies this
      ensures !initialized && !finished && status == InvalidArgument && nextSampleIndex == 0
      ensures peaks == Peaks(0.0, 0.0, 0.0, 0) && profile.Valid() && fresh(profile.Repr)
    {
      hide P.SCurveProfile.Valid;
      initialized, finished, status := false, false, InvalidArgument;
      request := Request([], Zero3, Identity, Zero3, Identity, 0, 0.0, 0.0, 0.0, 0.0, 0.0);
      arcInfo, segmentLength := ArcLengthInfo(0, 0.0), 0.0;
      profile := new P.SCurveProfile();
      nextSampleIndex, qSeed, peaks := 0, [], Peaks(0.0, 0.0, 0.0, 0);
    }

    /** Time scaling over a finished geometry, then the sequential state. */
    method Start(r: Request, info: ArcLengthInfo) returns (ok: bool)
      requires Buffers() && m.SqrtLaw() && m.Pow23Law() && ArgumentsOk(r)
      requires profile.Valid() && this !in profile.Repr && arcGeometry !in profile.Repr && lArc !in profile.Repr
      requires request == r && nextSampleIndex == 0 && !finished && peaks == Peaks(0.0, 0.0, 0.0, 0)
      requires info.count <= arcGeometry.Length && info.totalLength > MIN_LENGTH
      requires Parameterized(m, Waypoints(r.startPosition, r.endPosition, r.points), r.spacing, info,
                             CumulativeAll(m, Waypoints(r.startPosition, r.endPosition, r.points)),
                             lArc[..info.count], arcGeometry[..info.count])
      modifies this, profile.Repr
      ensures Valid() && ok && initialized && status == Ok && profile == old(profile)
      ensures request == r && nextSampleIndex == 0 && !finished
    {
      hide Parameterized, SelectTiming, IsSampleCount, TotalTime, Delivered, P.SCurveProfile.Valid, IsPlan, Waypoints,
           CumulativeAll;
      arcInfo := info;
      segmentLength := info.totalLength;
      ok := PlanProfile(r, segmentLength, profile);
      qSeed := r.qSeed;
      initialized, status := ok, if ok then Ok else ProfileFailed;
      MakePlan(m, r, ThePlan());
      NothingDelivered(m, robot, ThePlan());
    }

    /** Geometry and time scaling of one motion; no sample is produced yet. */
    method Init(r: Request) returns (ok: bool)
      requires Valid()
      modifies this, rawGeometry, arcGeometry, lOriginal, lArc
      ensures Valid() && initialized == ok
      ensures status == Expected(m, r, arcGeometry.Length) && (ok <==> status == Ok)
      ensures ok ==> request == r && nextSampleIndex == 0 && !finished
    {
      hide Parameterized, SelectTiming, Distance, SampleCount, IsSampleCount, TotalTime, Delivered,
           P.SCurveProfile.Valid, IsPlan;
      Reset();
      if r.points < 2 || r.spacing <= 0.0 || r.speed <= 0.0 || r.accel <= 0.0 || r.jerk <= 0.0 || r.dt <= 0.0 {
        return false;
      }
      if r.points > arcGeometry.Length {
        return false;
      }
      request := r;
      LineLength(m, r.startPosition, r.endPosition, r.points);
      var arcOk, info := PlanGeometry(r);
      if !arcOk {
        status := GeometryFailed;
        return false;
      }
      if info.totalLength <= MIN_LENGTH {
        status := GeometryFailed;
        return false;
      }
      ok := Start(r, info);
    }

    /** Target, solve and diagnostics of the next sample. */
    method Compute() returns (ok: bool, sample: LineSample)
      requires Valid() && initialized && nextSampleIndex < profile.sampleCount
      ensures ok == SolveAt(m, robot, ThePlan(), nextSampleIndex).ok
      ensures sample == SampleAt(m, robot, ThePlan(), nextSampleIndex)
    {
      hide Scaled, IsPlan, Delivered, SampleAt, PoseAt, SolveAt, P.Evaluated, IsSampleCount,
           Interpolated, Slerp, QuatToRotm, P.SCurveProfile.Valid, TotalTime, SampleTime;
      StepIsSample(m, robot, ThePlan(), nextSampleIndex, qSeed, peaks);
      var _, e := profile.EvaluateIndex(nextSampleIndex);
      var quaternion := Slerp(m, request.startOrientation, request.endOrientation, e.s);
      var lTimed := Scaled(segmentLength, e.s);
      var tcpSpeed := Scaled(segmentLength, e.sDot);
      var position := Interpolate(arcGeometry, lArc, arcInfo.count, lTimed);
      var pose := Pose(position, QuatToRotm(m, quaternion));
      var ik := robot.solve(pose, qSeed);
      sample := LineSample(nextSampleIndex, e, lTimed, tcpSpeed, position, quaternion, ik.q,
                           ik.iterations, robot.positionError(pose, ik.q), robot.orientationError(pose, ik.q));
      ok := ik.ok;
    }

    /** One more sample, or the reason why there is none. */
    method Next() returns (ok: bool, sample: LineSample)
      requires Valid()
      modifies this
      ensures Valid() && initialized == old(initialized) && profile == old(profile) && request == old(request)
      ensures initialized ==> ThePlan() == old(ThePlan())
      ensures !initialized ==> !ok && status == InvalidArgument
      ensures initialized && old(nextSampleIndex) == profile.sampleCount ==> !ok && status == Finished
      ensures initialized && old(nextSampleIndex) < profile.sampleCount ==>
                && ok == SolveAt(m, robot, ThePlan(), old(nextSampleIndex)).ok
                && status == (if ok then Ok else IkFailed)
                && (ok ==> sample == SampleAt(m, robot, ThePlan(), old(nextSampleIndex)))
      ensures nextSampleIndex == if ok then old(nextSampleIndex) + 1 else old(nextSampleIndex)
      ensures !ok ==> qSeed == old(qSeed) && peaks == old(peaks)
    {
      hide IsPlan, Delivered, SampleAt, SolveAt, Raise, P.SCurveProfile.Valid;
      sample := LineSample(0, P.Sample(0.0, 0.0, 0.0, 0.0, 0.0), 0.0, 0.0, Zero3, Identity, [], 0, 0.0, 0.0);
      if !initialized {
        status := InvalidArgument;
        return false, sample;
      }
      var total := profile.sampleCount;
      if nextSampleIndex >= total {
        finished, status := true, Finished;
        return false, sample;
      }
      ok, sample := Compute();
      if !ok {
        status := IkFailed;
        return;
      }
      DeliverNext(m, robot, ThePlan(), nextSampleIndex, qSeed, peaks);
      qSeed := sample.q;
      peaks := Raise(peaks, sample);
      nextSampleIndex := nextSampleIndex + 1;
      if nextSampleIndex >= total {
        finished := true;
      }
      status := Ok;
      return true, sample;
    }
  }

  lemma ScaledRequest(x: real, length: real)
    requires x > 0.0 && length > 0.0
    ensures x / length > 0.0
  {
    PositiveQuotient(x, length);
  }

  /** The status after initialisation: planning can fail only for the stated geometric reasons. */
  ghost function Expected(m: MathLib, r: Request, capacity: nat): Status
    requires m.SqrtLaw()
  {
    if !ArgumentsOk(r) || r.points > capacity then InvalidArgument
    else
      NormSquare(m, Sub(r.endPosition, r.startPosition));
      var length := Distance(m, r.startPosition, r.endPosition);
      if SampleCount(length, r.spacing) > capacity || length <= MIN_LENGTH then GeometryFailed else Ok
  }

  // ---- the geometry of the line ----

  lemma Fractions(n: nat, i: nat)
    requires n >= 2 && 1 <= i < n
    ensures var d := (n - 1) as real;
            && 0.0 <= (i - 1) as real / d <= i as real / d <= 1.0
            && i as real / d - (i - 1) as real / d == 1.0 / d
            && 0.0 / d == 0.0 && d / d == 1.0
            && (i - 1) as real * (1.0 / d) + 1.0 / d == i as real * (1.0 / d)
  {
    RealFractions((n - 1) as real, i as real);
  }

  lemma RealFractions(d: real, x: real)
    requires d > 0.0 && 1.0 <= x <= d
    ensures 0.0 <= (x - 1.0) / d <= x / d <= 1.0 && x / d - (x - 1.0) / d == 1.0 / d
    ensures 0.0 / d == 0.0 && d / d == 1.0
    ensures (x - 1.0) * (1.0 / d) + 1.0 / d == x * (1.0 / d)
  {
    FractionRange(0.0, d, x - 1.0, x);
  }

  lemma CumulativeOnLine(m: MathLib, a: Vec3, b: Vec3, n: nat, i: nat)
    requires m.SqrtLaw() && n >= 2 && i < n
    ensures Cumulative(m, Waypoints(a, b, n), i) == i as real * (1.0 / (n - 1) as real) * Distance(m, a, b)
  {
    hide Distance, Lerp;
    if i > 0 {
      CumulativeOnLine(m, a, b, n, i - 1);
      Fractions(n, i);
      LerpDistance(m, a, b, (i - 1) as real / (n - 1) as real, i as real / (n - 1) as real);
      Distribute((i - 1) as real * (1.0 / (n - 1) as real), 1.0 / (n - 1) as real, Distance(m, a, b));
    }
  }

  lemma Distribute(x: real, y: real, d: real)
    ensures x * d + y * d == (x + y) * d
  {}

  /** The accumulated length of the generated waypoints is the distance between the end points. */
  lemma LineLength(m: MathLib, a: Vec3, b: Vec3, n: nat)
    requires m.SqrtLaw() && n >= 2
    ensures Cumulative(m, Waypoints(a, b, n), n - 1) == Distance(m, a, b) >= 0.0
    ensures Waypoints(a, b, n)[0] == a && Waypoints(a, b, n)[n - 1] == b
  {
    hide Distance, Lerp;
    CumulativeOnLine(m, a, b, n, n - 1);
    CumulativeMonotone(m, Waypoints(a, b, n), 0, n - 1);
    DivideMultiply(1.0, (n - 1) as real);
    Fractions(n, n - 1);
    LerpEnds(a, b);
  }

  ghost predicate OnLine(a: Vec3, b: Vec3, p: Vec3) {
    exists u :: 0.0 <= u <= 1.0 && p == Lerp(a, b, u)
  }

  lemma MixMix(a: real, b: real, u: real, w: real, t: real)
    ensures Mix(Mix(a, b, u), Mix(a, b, w), t) == Mix(a, b, Mix(u, w, t))
  {}

  lemma MixRange(u: real, w: real, t: real)
    requires 0.0 <= u <= 1.0 && 0.0 <= w <= 1.0 && 0.0 <= t <= 1.0
    ensures 0.0 <= Mix(u, w, t) <= 1.0
  {
    WeightedBound(t, u, w, 1.0);
    WeightedBound(t, -u, -w, 0.0);
  }

  lemma LerpOnLine(a: Vec3, b: Vec3, p: Vec3, q: Vec3, t: real)
    requires OnLine(a, b, p) && OnLine(a, b, q) && 0.0 <= t <= 1.0
    ensures OnLine(a, b, Lerp(p, q, t))
  {
    hide Mix;
    var u :| 0.0 <= u <= 1.0 && p == Lerp(a, b, u);
    var w :| 0.0 <= w <= 1.0 && q == Lerp(a, b, w);
    MixRange(u, w, t);
    MixMix(a.x, b.x, u, w, t);
    MixMix(a.y, b.y, u, w, t);
    MixMix(a.z, b.z, u, w, t);
    assert Lerp(p, q, t) == Lerp(a, b, Mix(u, w, t));
  }

  lemma InterpolatedOnLine(a: Vec3, b: Vec3, path: seq<Vec3>, l: seq<real>, q: real)
    requires |path| == |l| > 0 && forall i :: 0 <= i < |path| ==> OnLine(a, b, path[i])
    ensures OnLine(a, b, Interpolated(path, l, q))
  {
    hide OnLine, Lerp;
    if Inside(l, q) {
      UpperStrict(l, q);
      var i := Upper(l, q, 1);
      FractionRange(l[i - 1], l[i], q, q);
      LerpOnLine(a, b, path[i - 1], path[i], (q - l[i - 1]) / (l[i] - l[i - 1]));
    }
  }

  lemma WaypointOnLine(a: Vec3, b: Vec3, n: nat, i: nat)
    requires n >= 2 && i < n
    ensures OnLine(a, b, WaypointAt(a, b, n, i))
  {
    if i == 0 {
      Fractions(n, 1);
    } else {
      Fractions(n, i);
    }
  }

  /** No target ever leaves the straight line between the two waypoints. */
  lemma TargetOnLine(m: MathLib, r: Request, p: Plan, k: nat)
    requires IsPlan(m, r, p) && k < p.sampleCount
    ensures OnLine(r.startPosition, r.endPosition, PositionAt(p, k))
  {
    hide OnLine, Interpolated, SelectTiming, ArcAt, WaypointAt;
    var path := Waypoints(r.startPosition, r.endPosition, r.points);
    forall i | 0 <= i < |path|
      ensures OnLine(r.startPosition, r.endPosition, path[i])
    {
      WaypointOnLine(r.startPosition, r.endPosition, r.points, i);
    }
    forall i | 0 <= i < |p.resampled|
      ensures OnLine(r.startPosition, r.endPosition, p.resampled[i])
    {
      InterpolatedOnLine(r.startPosition, r.endPosition, path, CumulativeAll(m, path), p.knots[i]);
    }
    InterpolatedOnLine(r.startPosition, r.endPosition, p.resampled, p.knots, ArcAt(p, k));
  }

  // ---- end-to-end theorems ----

  lemma PlanRequest(m: MathLib, r: Request, p: Plan)
    requires m.SqrtLaw() && m.Pow23Law() && IsPlan(m, r, p)
    ensures ValidRequest(r.speed / p.length, r.accel / p.length, p.jMax)
    ensures p.length * (r.speed / p.length) == r.speed && p.length * p.jMax == r.jerk
  {
    hide SelectTiming, TotalTime, IsSampleCount, Parameterized, MathLib.SqrtLaw, MathLib.Pow23Law;
    PositiveQuotient(r.speed, p.length);
    PositiveQuotient(r.accel, p.length);
    PositiveQuotient(r.jerk, p.length);
  }

  lemma PlanEnds(m: MathLib, r: Request, p: Plan)
    requires IsPlan(m, r, p)
    ensures p.sampleCount >= 2 && ProfileAt(p, 0).s == 0.0 && ProfileAt(p, p.sampleCount - 1).s == 1.0
    ensures ArcAt(p, 0) == 0.0 && ArcAt(p, p.sampleCount - 1) == p.length
  {
    hide Parameterized, SelectTiming, TotalTime, Lookup, OnSegment;
    SampleTimes(p.sampleCount, TotalTime(p.timing), r.dt, 0);
  }

  lemma KnotEnds(m: MathLib, r: Request, p: Plan)
    requires m.SqrtLaw() && IsPlan(m, r, p)
    ensures |p.knots| >= 2 && p.knots[0] == 0.0 && p.knots[|p.knots| - 1] == p.length
    ensures p.resampled[0] == r.startPosition && p.resampled[|p.knots| - 1] == r.endPosition
  {
    hide Distance, SelectTiming, TotalTime, Upper, Blend, WaypointAt;
    LineLength(m, r.startPosition, r.endPosition, r.points);
    SampleTimes(|p.knots|, p.length, r.spacing, 0);
  }

  /** The first and the last sample are exactly the two waypoints. */
  lemma TargetEnds(m: MathLib, r: Request, p: Plan)
    requires m.SqrtLaw() && m.Pow23Law() && m.CircleLaw() && m.AcosLaw() && IsPlan(m, r, p)
    ensures p.sampleCount >= 2
    ensures PositionAt(p, 0) == r.startPosition && PositionAt(p, p.sampleCount - 1) == r.endPosition
    ensures OrientationAt(m, p, 0) == Normalize(m, r.startOrientation)
    ensures SameRotation(OrientationAt(m, p, p.sampleCount - 1), Normalize(m, r.endOrientation))
  {
    hide Slerp, Normalize, SelectTiming, TotalTime, ProfileAt, ArcAt, Parameterized;
    PlanEnds(m, r, p);
    KnotEnds(m, r, p);
    SlerpEnds(m, r.startOrientation, r.endOrientation);
  }

  /** How far one sample may be from the one before it. */
  ghost function StepBound(m: MathLib, r: Request, p: Plan): real {
    r.speed * r.dt + 4.0 * JerkToPosition(r.jerk, P.LOOKUP_SLACK)
    + 2.0 * PathError(m, Waypoints(r.startPosition, r.endPosition, if r.points >= 2 then r.points else 2), p.knots)
  }

  lemma StepLength(length: real, v: real, j: real, speed: real, jerk: real, ds: real, gap: real, dt: real, eps: real)
    requires length > 0.0 && length * v == speed && length * j == jerk && gap <= dt && speed > 0.0
    requires -4.0 * JerkToPosition(j, eps) <= ds <= v * gap + 4.0 * JerkToPosition(j, eps)
    ensures -4.0 * JerkToPosition(jerk, eps) <= length * ds <= speed * dt + 4.0 * JerkToPosition(jerk, eps)
  {
    ScaledJerk(length, j, jerk, eps);
    ScaleLe(length, -4.0 * JerkToPosition(j, eps), ds);
    ScaleLe(length, ds, v * gap + 4.0 * JerkToPosition(j, eps));
    assert length * (v * gap) == speed * gap;
    ScaleLe(speed, gap, dt);
  }

  lemma ScaledJerk(length: real, j: real, jerk: real, eps: real)
    requires length * j == jerk
    ensures length * JerkToPosition(j, eps) == JerkToPosition(jerk, eps)
    ensures length * JerkToVelocity(j, eps) == JerkToVelocity(jerk, eps)
  {
    ProductOfJerk(length, j, 0.5 * eps * eps);
    ProductOfJerk(length, j, (1.0 / 6.0) * eps * eps * eps);
  }

  lemma ProductOfJerk(length: real, j: real, h: real)
    ensures length * (j * h) == (length * j) * h
  {}

  lemma ArcStep(m: MathLib, r: Request, p: Plan, k: nat)
    requires m.SqrtLaw() && m.Pow23Law() && IsPlan(m, r, p) && k + 1 < p.sampleCount
    ensures -4.0 * JerkToPosition(r.jerk, P.LOOKUP_SLACK) <= ArcAt(p, k + 1) - ArcAt(p, k)
         <= r.speed * r.dt + 4.0 * JerkToPosition(r.jerk, P.LOOKUP_SLACK)
  {
    hide SelectTiming, TotalTime, P.Evaluated, JerkToPosition, Parameterized, IsSampleCount, SampleTime;
    PlanRequest(m, r, p);
    var T := TotalTime(p.timing);
    SampleTimes(p.sampleCount, T, r.dt, k);
    var t1, t2 := SampleTime(p.sampleCount, T, r.dt, k), SampleTime(p.sampleCount, T, r.dt, k + 1);
    P.EvaluatedProgress(m, r.speed / p.length, r.accel / p.length, p.jMax, t1, t2, P.LOOKUP_SLACK);
    var s1, s2 := ProfileAt(p, k).s, ProfileAt(p, k + 1).s;
    StepLength(p.length, r.speed / p.length, p.jMax, r.speed, r.jerk, s2 - s1, t2 - t1, r.dt, P.LOOKUP_SLACK);
    assert p.length * (s2 - s1) == p.length * s2 - p.length * s1;
  }

  /**
   * Two consecutive targets are never further apart than the requested speed allows in one
   * sample, up to the lookup slack of the profile and the short-gap guard of the geometry.
   */
  lemma TargetStep(m: MathLib, r: Request, p: Plan, k: nat)
    requires m.SqrtLaw() && m.Pow23Law() && IsPlan(m, r, p) && k + 1 < p.sampleCount
    ensures Distance(m, PositionAt(p, k), PositionAt(p, k + 1)) <= StepBound(m, r, p)
  {
    hide SelectTiming, TotalTime, ArcAt, Distance, JerkToPosition, Parameterized, Interpolated, PathError,
         IsSampleCount;
    ArcStep(m, r, p, k);
    var path := Waypoints(r.startPosition, r.endPosition, r.points);
    var q1, q2 := ArcAt(p, k), ArcAt(p, k + 1);
    assert StepBound(m, r, p) == r.speed * r.dt + 4.0 * JerkToPosition(r.jerk, P.LOOKUP_SLACK)
        + 2.0 * PathError(m, path, p.knots);
    var bound := 4.0 * JerkToPosition(r.jerk, P.LOOKUP_SLACK);
    ProductPositive(r.speed, r.dt);
    var info := ArcLengthInfo(|p.knots|, p.length);
    if q1 <= q2 {
      ResampledLipschitz(m, path, r.spacing, info, CumulativeAll(m, path), p.knots, p.resampled, q1, q2);
    } else {
      ResampledLipschitz(m, path, r.spacing, info, CumulativeAll(m, path), p.knots, p.resampled, q2, q1);
      DistanceSymmetric(m, PositionAt(p, k), PositionAt(p, k + 1));
    }
  }

  /** The reported tool speed never exceeds the requested one by more than the lookup slack. */
  lemma ReportedSpeed(m: MathLib, r: Request, p: Plan, k: nat)
    requires m.SqrtLaw() && m.Pow23Law() && IsPlan(m, r, p) && k < p.sampleCount
    ensures SpeedAt(p, k) <= r.speed + 2.0 * JerkToVelocity(r.jerk, P.LOOKUP_SLACK)
  {
    hide SelectTiming, TotalTime, P.Evaluated, JerkToPosition, JerkToVelocity, Parameterized, IsSampleCount;
    PlanRequest(m, r, p);
    P.EvaluatedInLimits(m, r.speed / p.length, r.accel / p.length, p.jMax,
                        SampleTime(p.sampleCount, TotalTime(p.timing), r.dt, k), P.LOOKUP_SLACK);
    ScaledJerk(p.length, p.jMax, r.jerk, P.LOOKUP_SLACK);
    assert SpeedAt(p, k) == p.length * ProfileAt(p, k).sDot;
    assert ProfileAt(p, k).sDot <= r.speed / p.length + 2.0 * JerkToVelocity(p.jMax, P.LOOKUP_SLACK);
    ScaledSpeed(p.length, r.speed / p.length, JerkToVelocity(p.jMax, P.LOOKUP_SLACK), ProfileAt(p, k).sDot);
  }

  lemma ScaledSpeed(length: real, v: real, slack: real, x: real)
    requires length > 0.0 && x <= v + 2.0 * slack
    ensures length * x <= length * v + 2.0 * (length * slack)
  {
    ScaleLe(length, x, v + 2.0 * slack);
  }

  /** Two initialisations with the same request plan the same samples, so a replay repeats what was checked. */
  lemma PlanDetermined(m: MathLib, r: Request, p: Plan, p': Plan)
    requires IsPlan(m, r, p) && IsPlan(m, r, p')
    ensures p == p'
  {
    hide SelectTiming, TotalTime, Interpolated;
    LengthPositive(p.length);
    SampleCountUnique(|p.knots|, |p'.knots|, p.length, r.spacing);
    SampleCountUnique(p.sampleCount, p'.sampleCount, TotalTime(p.timing), r.dt);
  }

  lemma LengthPositive(length: real)
    requires length > MIN_LENGTH
    ensures length > 0.0
  {}
}
