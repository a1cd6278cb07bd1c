/** The joint-limit checks of a planned motion: constant memory while streaming, and over the stored batch. */
module LimitValidation {
  import opened RealMath

  const DOF := 6
  const MIN_STEP := 0.000000000000001

  datatype Timed = Timed(t: real, q: seq<real>)

  datatype Limits = Limits(qMin: seq<real>, qMax: seq<real>, qdMax: seq<real>)
  {
    predicate Valid() { |qMin| == DOF && |qMax| == DOF && |qdMax| == DOF }
  }

  ghost predicate Samples(s: seq<Timed>) {
    forall k :: 0 <= k < |s| ==> |s[k].q| == DOF
  }

  // ---- what both forms compute ----

  datatype Option<T> = None | Some(value: T)

  /** Difference quotient of one joint, unless the times coincide. */
  function Quotient(a: Timed, b: Timed, j: nat): Option<real>
    requires j < |a.q| && j < |b.q|
  {
    var dt := b.t - a.t;
    if Abs(dt) > MIN_STEP then Some((b.q[j] - a.q[j]) / dt) else None
  }

  /** One-sided at the ends, central in between. */
  function VelocityAt(s: seq<Timed>, k: nat, j: nat): Option<real>
    requires k < |s| && j < DOF && Samples(s)
  {
    if |s| < 2 then None
    else if k == 0 then Quotient(s[0], s[1], j)
    else if k == |s| - 1 then Quotient(s[k - 1], s[k], j)
    else Quotient(s[k - 1], s[k + 1], j)
  }

  function Raised(peak: real, v: Option<real>): real {
    if v.Some? && Abs(v.value) > peak then Abs(v.value) else peak
  }

  /** Peak of the first `k` velocities of a joint. */
  function PeakTo(s: seq<Timed>, j: nat, k: nat): (p: real)
    requires k <= |s| && j < DOF && Samples(s)
    ensures p >= 0.0
  {
    if k == 0 then 0.0 else Raised(PeakTo(s, j, k - 1), VelocityAt(s, k - 1, j))
  }

  /** Largest step among the first `k` samples of a joint. */
  function StepTo(s: seq<Timed>, j: nat, k: nat): real
    requires k <= |s| && j < DOF && Samples(s)
  {
    if k < 2 then 0.0
    else
      var step := Abs(s[k - 1].q[j] - s[k - 2].q[j]);
      if step > StepTo(s, j, k - 1) then step else StepTo(s, j, k - 1)
  }

  predicate Outside(x: real, lo: real, hi: real) { x < lo || x > hi }

  ghost predicate PositionsOk(s: seq<Timed>, limits: Limits, k: nat)
    requires k <= |s| && Samples(s) && limits.Valid()
  {
    forall i, j :: 0 <= i < k && 0 <= j < DOF ==> !Outside(s[i].q[j], limits.qMin[j], limits.qMax[j])
  }

  ghost predicate VelocityOk(s: seq<Timed>, limits: Limits, i: nat, j: nat)
    requires i < |s| && j < DOF && Samples(s) && limits.Valid()
  {
    var v := VelocityAt(s, i, j);
    v.Some? ==> Abs(v.value) <= limits.qdMax[j]
  }

  ghost predicate VelocitiesOk(s: seq<Timed>, limits: Limits, k: nat)
    requires k <= |s| && Samples(s) && limits.Valid()
  {
    forall i :: 0 <= i < k ==> RowOk(s, limits, i)
  }

  ghost predicate RowOk(s: seq<Timed>, limits: Limits, i: nat)
    requires i < |s| && Samples(s) && limits.Valid()
  {
    forall j :: 0 <= j < DOF ==> VelocityOk(s, limits, i, j)
  }

  /** The velocities between two samples, where they exist, keep the limits. */
  ghost predicate QuotientsOk(a: Timed, b: Timed, limits: Limits)
    requires |a.q| == DOF && |b.q| == DOF && limits.Valid()
  {
    forall j :: 0 <= j < DOF ==> (Quotient(a, b, j).Some? ==> Abs(Quotient(a, b, j).value) <= limits.qdMax[j])
  }

  // ---- streaming ----

  /** A later sample changes no velocity but the one at the end. */
  lemma VelocityStable(s: seq<Timed>, x: Timed, k: nat, j: nat)
    requires k + 1 < |s| && j < DOF && Samples(s) && Samples(s + [x])
    ensures VelocityAt(s + [x], k, j) == VelocityAt(s, k, j)
  {}

  lemma {:induction false} PeakStable(s: seq<Timed>, x: Timed, j: nat, k: nat)
    requires k < |s| && j < DOF && Samples(s) && Samples(s + [x])
    ensures PeakTo(s + [x], j, k) == PeakTo(s, j, k)
  {
    if k > 0 {
      PeakStable(s, x, j, k - 1);
      VelocityStable(s, x, k - 1, j);
    }
  }

  lemma {:induction false} StepStable(s: seq<Timed>, x: Timed, j: nat, k: nat)
    requires k <= |s| && j < DOF && Samples(s) && Samples(s + [x])
    ensures StepTo(s + [x], j, k) == StepTo(s, j, k)
  {
    if k >= 2 {
      StepStable(s, x, j, k - 1);
    }
  }

  function Settled(s: seq<Timed>): nat { if s == [] then 0 else |s| - 1 }

  class StreamingValidator {
    const limits: Limits
    const peak: array<real>
    const maxStep: array<real>
    var positionPass: bool
    var velocityPass: bool
    var havePrevious: bool
    var havePreviousPrevious: bool
    var previous: Timed
    var previousPrevious: Timed
    ghost var seen: seq<Timed>

    ghost predicate Shape()
      reads this
    {
      && limits.Valid() && peak.Length == DOF && maxStep.Length == DOF && peak != maxStep
      && Samples(seen)
    }

    ghost predicate Window()
      reads this
    {
      && (havePrevious <==> |seen| >= 1) && (havePreviousPrevious <==> |seen| >= 2)
      && (havePrevious ==> previous == seen[|seen| - 1])
      && (havePreviousPrevious ==> previousPrevious == seen[|seen| - 2])
    }

    /** Velocities are settled for all samples but the newest; everything else for all. */
    ghost predicate Valid()
      reads this, peak, maxStep
    {
      && Shape() && Window()
      && (forall j :: 0 <= j < DOF ==> peak[j] == PeakTo(seen, j, Settled(seen)))
      && (forall j :: 0 <= j < DOF ==> maxStep[j] == StepTo(seen, j, |seen|))
      && (positionPass <==> PositionsOk(seen, limits, |seen|))
      && (velocityPass <==> VelocitiesOk(seen, limits, Settled(seen)))
    }

    constructor (limits: Limits)
      requires limits.Valid()
      ensures Valid() && seen == [] && this.limits == limits && fresh(peak) && fresh(maxStep)
    {
      this.limits := limits;
      peak := new real[DOF](_ => 0.0);
      maxStep := new real[DOF](_ => 0.0);
      positionPass, velocityPass, havePrevious, havePreviousPrevious := true, true, false, false;
      previous, previousPrevious, seen := Timed(0.0, []), Timed(0.0, []), [];
    }

    /** One velocity vector enters the peaks and the verdict. */
    method UpdateVelocities(a: Timed, b: Timed)
      requires Shape() && |a.q| == DOF && |b.q| == DOF
      modifies this`velocityPass, peak
      ensures forall j :: 0 <= j < DOF ==> peak[j] == Raised(old(peak[j]), Quotient(a, b, j))
      ensures velocityPass <==> old(velocityPass) && QuotientsOk(a, b, limits)
    {
      var dt := b.t - a.t;
      if Abs(dt) > MIN_STEP {
        for j := 0 to DOF
          invariant forall k :: 0 <= k < j ==> peak[k] == Raised(old(peak[k]), Quotient(a, b, k))
          invariant forall k :: j <= k < DOF ==> peak[k] == old(peak[k])
          invariant velocityPass <==>
                    old(velocityPass) && forall k :: 0 <= k < j ==> Abs(Quotient(a, b, k).value) <= limits.qdMax[k]
        {
          var magnitude := Abs((b.q[j] - a.q[j]) / dt);
          if magnitude > peak[j] {
            peak[j] := magnitude;
          }
          if magnitude > limits.qdMax[j] {
            velocityPass := false;
          }
        }
      }
    }

    method UpdatePositions(x: Timed)
      requires Shape() && Window() && |x.q| == DOF
      requires forall j :: 0 <= j < DOF ==> maxStep[j] == StepTo(seen, j, |seen|)
      requires positionPass <==> PositionsOk(seen, limits, |seen|)
      modifies this`positionPass, maxStep
      ensures forall j :: 0 <= j < DOF ==> maxStep[j] == StepTo(seen + [x], j, |seen| + 1)
      ensures positionPass <==> PositionsOk(seen + [x], limits, |seen| + 1)
    {
      ghost var s, n := seen + [x], |seen|;
      for j := 0 to DOF
        invariant forall k :: 0 <= k < j ==> maxStep[k] == StepTo(s, k, n + 1)
        invariant forall k :: j <= k < DOF ==> maxStep[k] == old(maxStep[k])
        invariant positionPass <==>
                  PositionsOk(seen, limits, n) && forall k ::
                  0 <= k < j ==> !Outside(x.q[k], limits.qMin[k], limits.qMax[k])
      {
        StepStable(seen, x, j, n);
        if x.q[j] < limits.qMin[j] || x.q[j] > limits.qMax[j] {
          positionPass := false;
        }
        if havePrevious {
          var step := Abs(x.q[j] - previous.q[j]);
          if step > maxStep[j] {
            maxStep[j] := step;
          }
        }
      }
      PositionsExtend(seen, x, limits);
    }

    /** The velocity that the newest sample settles. */
    method SettleVelocities(x: Timed)
      requires Shape() && Window() && |x.q| == DOF
      requires forall j :: 0 <= j < DOF ==> peak[j] == PeakTo(seen, j, Settled(seen))
      requires velocityPass <==> VelocitiesOk(seen, limits, Settled(seen))
      modifies this`velocityPass, peak
      ensures Samples(seen + [x]) && Settled(seen + [x]) == |seen|
      ensures forall j :: 0 <= j < DOF ==> peak[j] == PeakTo(seen + [x], j, |seen|)
      ensures velocityPass <==> VelocitiesOk(seen + [x], limits, |seen|)
    {
      hide PeakTo, VelocitiesOk, Raised, Quotient;
      SettleOne(seen, x, limits);
      NothingSettled(x, limits);
      if havePrevious && !havePreviousPrevious {
        UpdateVelocities(previous, x);
      } else if havePrevious && havePreviousPrevious {
        UpdateVelocities(previousPrevious, x);
      }
      assert seen == [] ==> seen + [x] == [x];
    }

    method Observe(x: Timed)
      requires Valid() && |x.q| == DOF
      modifies this, peak, maxStep
      ensures Valid() && seen == old(seen) + [x]
    {
      hide PeakTo, StepTo, VelocitiesOk, PositionsOk;
      UpdatePositions(x);
      SettleVelocities(x);
      if havePrevious {
        previousPrevious, havePreviousPrevious := previous, true;
      }
      previous, havePrevious := x, true;
      seen := seen + [x];
    }

    /** The one-sided velocity at the end. */
    method Finish()
      requires Valid()
      modifies this`velocityPass, peak
      ensures forall j :: 0 <= j < DOF ==> peak[j] == PeakTo(seen, j, |seen|) && maxStep[j] == StepTo(seen, j, |seen|)
      ensures positionPass <==> PositionsOk(seen, limits, |seen|)
      ensures velocityPass <==> VelocitiesOk(seen, limits, |seen|)
    {
      if havePrevious && havePreviousPrevious {
        UpdateVelocities(previousPrevious, previous);
      }
      LastVelocity(seen, limits);
    }
  }

  lemma NothingSettled(x: Timed, limits: Limits)
    requires |x.q| == DOF && limits.Valid()
    ensures forall j :: 0 <= j < DOF ==> PeakTo([], j, 0) == PeakTo([x], j, 0)
    ensures VelocitiesOk([], limits, 0) && VelocitiesOk([x], limits, 0)
  {}

  lemma PositionsExtend(s: seq<Timed>, x: Timed, limits: Limits)
    requires Samples(s) && |x.q| == DOF && limits.Valid()
    ensures PositionsOk(s + [x], limits, |s| + 1) <==>
              PositionsOk(s, limits, |s|) && forall k ::
                  0 <= k < DOF ==> !Outside(x.q[k], limits.qMin[k], limits.qMax[k])
  {
    var t := s + [x];
    assert forall i :: 0 <= i < |s| ==> t[i] == s[i];
    assert t[|s|] == x;
  }

  /** The sample before the newest but one, or the first. */
  function Earlier(s: seq<Timed>): Timed
    requires s != []
  {
    if |s| == 1 then s[0] else s[|s| - 2]
  }

  /** A new sample settles the velocity of the one before it. */
  lemma SettleOne(s: seq<Timed>, x: Timed, limits: Limits)
    requires Samples(s) && |x.q| == DOF && limits.Valid()
    ensures s == [] ==> Settled(s + [x]) == Settled(s) == 0
    ensures s != [] ==> var n := |s|;
              && Settled(s + [x]) == n && Settled(s) == n - 1
              && (forall j ::
                    0 <= j < DOF ==> PeakTo(s + [x], j, n) == Raised(PeakTo(s, j, n - 1), Quotient(Earlier(s), x, j)))
              && (VelocitiesOk(s + [x], limits, n) <==>
                    VelocitiesOk(s, limits, n - 1) && QuotientsOk(Earlier(s), x, limits))
  {
    hide PeakTo, VelocitiesOk, QuotientsOk, Quotient, RowOk;
    if s != [] {
      forall j | 0 <= j < DOF
        ensures PeakTo(s + [x], j, |s|) == Raised(PeakTo(s, j, |s| - 1), Quotient(Earlier(s), x, j))
      {
        SettledPeak(s, x, j);
      }
      VelocitiesExtend(s, x, limits);
      SettledRow(s, x, limits);
    }
  }

  lemma SettledPeak(s: seq<Timed>, x: Timed, j: nat)
    requires Samples(s) && |x.q| == DOF && s != [] && j < DOF
    ensures Samples(s + [x]) && PeakTo(s + [x], j, |s|) == Raised(PeakTo(s, j, |s| - 1), Quotient(Earlier(s), x, j))
  {
    hide Quotient;
    PeakStable(s, x, j, |s| - 1);
    assert VelocityAt(s + [x], |s| - 1, j) == Quotient(Earlier(s), x, j);
  }

  lemma SettledRow(s: seq<Timed>, x: Timed, limits: Limits)
    requires Samples(s) && |x.q| == DOF && limits.Valid() && s != []
    ensures RowOk(s + [x], limits, |s| - 1) <==> QuotientsOk(Earlier(s), x, limits)
  {
    hide Quotient;
    forall j | 0 <= j < DOF
      ensures VelocityOk(s + [x], limits, |s| - 1, j) <==>
                (Quotient(Earlier(s), x, j).Some? ==> Abs(Quotient(Earlier(s), x, j).value) <= limits.qdMax[j])
    {}
  }

  lemma VelocitiesExtend(s: seq<Timed>, x: Timed, limits: Limits)
    requires Samples(s) && |x.q| == DOF && limits.Valid() && s != []
    ensures var t, n := s + [x], |s|;
            VelocitiesOk(t, limits, n) <==> VelocitiesOk(s, limits, n - 1) && RowOk(t, limits, n - 1)
  {
    hide VelocityAt;
    var t, n := s + [x], |s|;
    forall i | 0 <= i < n - 1
      ensures RowOk(t, limits, i) <==> RowOk(s, limits, i)
    {
      forall j | 0 <= j < DOF
        ensures VelocityOk(t, limits, i, j) <==> VelocityOk(s, limits, i, j)
      {
        VelocityStable(s, x, i, j);
      }
    }
  }

  lemma LastVelocity(s: seq<Timed>, limits: Limits)
    requires Samples(s) && limits.Valid()
    ensures |s| < 2 ==> (forall j :: 0 <= j < DOF ==> PeakTo(s, j, |s|) == PeakTo(s, j, Settled(s)))
                        && (VelocitiesOk(s, limits, |s|) <==> VelocitiesOk(s, limits, Settled(s)))
    ensures |s| >= 2 ==> var n := |s|;
              && (forall j ::
                    0 <= j < DOF ==> PeakTo(s, j, n) == Raised(PeakTo(s, j, n - 1), Quotient(s[n - 2], s[n - 1], j)))
              && (VelocitiesOk(s, limits, n) <==>
                    VelocitiesOk(s, limits, n - 1) && QuotientsOk(s[n - 2], s[n - 1], limits))
  {
    hide Quotient;
    var n := |s|;
    if n >= 2 {
      LastRow(s, limits);
    } else if n == 1 {
      assert forall j :: 0 <= j < DOF ==> VelocityOk(s, limits, 0, j);
      assert RowOk(s, limits, 0);
    }
  }

  lemma LastRow(s: seq<Timed>, limits: Limits)
    requires Samples(s) && limits.Valid() && |s| >= 2
    ensures RowOk(s, limits, |s| - 1) <==> QuotientsOk(s[|s| - 2], s[|s| - 1], limits)
  {
    hide Quotient;
    var a, b := s[|s| - 2], s[|s| - 1];
    forall j | 0 <= j < DOF
      ensures VelocityOk(s, limits, |s| - 1, j) <==>
              (Quotient(a, b, j).Some? ==> Abs(Quotient(a, b, j).value) <= limits.qdMax[j])
    {}
  }

  // ---- batch ----

  function GradientAt(s: seq<Timed>, k: nat, j: nat): real
    requires k < |s| && j < DOF && Samples(s)
  {
    var v := VelocityAt(s, k, j);
    if v.Some? then v.value else 0.0
  }

  method ComputeGradient(s: seq<Timed>, gradient: array2<real>)
    requires Samples(s) && |s| > 0 && gradient.Length0 == |s| && gradient.Length1 == DOF
    modifies gradient
    ensures forall k, j :: 0 <= k < |s| && 0 <= j < DOF ==> gradient[k, j] == GradientAt(s, k, j)
  {
    var count := |s|;
    if count == 1 {
      for j := 0 to DOF
        invariant forall i :: 0 <= i < j ==> gradient[0, i] == 0.0
      {
        gradient[0, j] := 0.0;
      }
      return;
    }
    for j := 0 to DOF
      invariant forall k, i :: 0 <= k < count && 0 <= i < j ==> gradient[k, i] == GradientAt(s, k, i)
    {
      var dtFirst := s[1].t - s[0].t;
      gradient[0, j] := if Abs(dtFirst) > MIN_STEP then (s[1].q[j] - s[0].q[j]) / dtFirst else 0.0;
      for k := 1 to count - 1
        invariant forall l, i :: 0 <= l < count && 0 <= i < j ==> gradient[l, i] == GradientAt(s, l, i)
        invariant forall l :: 0 <= l < k ==> gradient[l, j] == GradientAt(s, l, j)
      {
        var dtCentral := s[k + 1].t - s[k - 1].t;
        gradient[k, j] := if Abs(dtCentral) > MIN_STEP then (s[k + 1].q[j] - s[k - 1].q[j]) / dtCentral else 0.0;
      }
      var dtLast := s[count - 1].t - s[count - 2].t;
      gradient[count - 1, j] := if Abs(dtLast) > MIN_STEP then (s[count - 1].q[j] - s[count - 2].q[j]) / dtLast
          else 0.0;
    }
  }

  lemma ZeroNeverRaises(peak: real, v: Option<real>, g: real)
    requires peak >= 0.0 && g == if v.Some? then v.value else 0.0
    ensures Raised(peak, v) == if Abs(g) > peak then Abs(g) else peak
  {}

  ghost predicate PeaksOk(s: seq<Timed>, limits: Limits)
    requires Samples(s) && limits.Valid()
  {
    forall j :: 0 <= j < DOF ==> PeakTo(s, j, |s|) <= limits.qdMax[j]
  }

  method BatchLimits(s: seq<Timed>, limits: Limits, gradient: array2<real>, peak: array<real>, maxStep: array<real>)
    returns (positionPass: bool, velocityPass: bool)
    requires Samples(s) && |s| > 0 && limits.Valid() && gradient.Length0 == |s| && gradient.Length1 == DOF
    requires forall k, j :: 0 <= k < |s| && 0 <= j < DOF ==> gradient[k, j] == GradientAt(s, k, j)
    requires peak.Length == DOF && maxStep.Length == DOF && peak != maxStep
    modifies peak, maxStep
    ensures forall j :: 0 <= j < DOF ==> peak[j] == PeakTo(s, j, |s|) && maxStep[j] == StepTo(s, j, |s|)
    ensures positionPass <==> PositionsOk(s, limits, |s|)
    ensures velocityPass <==> PeaksOk(s, limits)
  {
    positionPass, velocityPass := true, true;
    for j := 0 to DOF
      invariant forall i :: 0 <= i < j ==> peak[i] == PeakTo(s, i, |s|) && maxStep[i] == StepTo(s, i, |s|)
      invariant positionPass <==>
                forall k, i :: 0 <= k < |s| && 0 <= i < j ==> !Outside(s[k].q[i], limits.qMin[i], limits.qMax[i])
      invariant velocityPass <==> forall i :: 0 <= i < j ==> PeakTo(s, i, |s|) <= limits.qdMax[i]
    {
      var inside, peakJoint, maxJointStep := JointLimits(s, limits, gradient, j);
      if !inside {
        positionPass := false;
      }
      peak[j], maxStep[j] := peakJoint, maxJointStep;
      if peakJoint > limits.qdMax[j] {
        velocityPass := false;
      }
    }
  }

  method JointLimits(s: seq<Timed>, limits: Limits, gradient: array2<real>, j: nat)
      returns (inside: bool, peak: real, maxStep: real)
    requires Samples(s) && limits.Valid() && j < DOF && gradient.Length0 == |s| && gradient.Length1 == DOF
    requires forall k :: 0 <= k < |s| ==> gradient[k, j] == GradientAt(s, k, j)
    ensures inside <==> forall k :: 0 <= k < |s| ==> !Outside(s[k].q[j], limits.qMin[j], limits.qMax[j])
    ensures peak == PeakTo(s, j, |s|) && maxStep == StepTo(s, j, |s|)
  {
    inside, peak, maxStep := true, 0.0, 0.0;
    for k := 0 to |s|
      invariant inside <==> forall i :: 0 <= i < k ==> !Outside(s[i].q[j], limits.qMin[j], limits.qMax[j])
      invariant peak == PeakTo(s, j, k) && maxStep == StepTo(s, j, k)
    {
      if s[k].q[j] < limits.qMin[j] || s[k].q[j] > limits.qMax[j] {
        inside := false;
      }
      var velocity := Abs(gradient[k, j]);
      ZeroNeverRaises(peak, VelocityAt(s, k, j), gradient[k, j]);
      if velocity > peak {
        peak := velocity;
      }
      if k > 0 {
        var step := Abs(s[k].q[j] - s[k - 1].q[j]);
        if step > maxStep {
          maxStep := step;
        }
      }
    }
  }

  // ---- the two forms agree ----

  /** At least one velocity could be formed; which ones depends on the times alone. */
  ghost predicate SomeVelocity(s: seq<Timed>)
    requires Samples(s)
  {
    exists i :: 0 <= i < |s| && VelocityAt(s, i, 0).Some?
  }

  lemma {:induction false} PeakBounds(s: seq<Timed>, j: nat, k: nat, bound: real)
    requires k <= |s| && j < DOF && Samples(s)
    ensures PeakTo(s, j, k) <= bound <==>
              0.0 <= bound && forall i ::
                  0 <= i < k && VelocityAt(s, i, j).Some? ==> Abs(VelocityAt(s, i, j).value) <= bound
  {
    if k > 0 {
      PeakBounds(s, j, k - 1, bound);
    }
  }

  lemma SameTimes(s: seq<Timed>, i: nat, j: nat)
    requires i < |s| && j < DOF && Samples(s)
    ensures VelocityAt(s, i, j).Some? <==> VelocityAt(s, i, 0).Some?
  {}

  lemma JointMeaning(s: seq<Timed>, limits: Limits, j: nat)
    requires Samples(s) && limits.Valid() && j < DOF
    ensures PeakTo(s, j, |s|) <= limits.qdMax[j] <==>
              0.0 <= limits.qdMax[j] && forall i :: 0 <= i < |s| ==> VelocityOk(s, limits, i, j)
  {
    hide VelocityAt, PeakTo;
    PeakBounds(s, j, |s|, limits.qdMax[j]);
    assert forall i ::
        0 <= i < |s| ==>
        (VelocityOk(s, limits, i, j) <==>
           (VelocityAt(s, i, j).Some? ==> Abs(VelocityAt(s, i, j).value) <= limits.qdMax[j]));
  }

  ghost predicate NoNegativeLimit(limits: Limits)
    requires limits.Valid()
  {
    forall j :: 0 <= j < DOF ==> limits.qdMax[j] >= 0.0
  }

  lemma VelocityMeaning(s: seq<Timed>, limits: Limits)
    requires Samples(s) && limits.Valid()
    ensures PeaksOk(s, limits) <==> VelocitiesOk(s, limits, |s|) && NoNegativeLimit(limits)
  {
    hide VelocityOk, PeakTo;
    forall j | 0 <= j < DOF
      ensures PeakTo(s, j, |s|) <= limits.qdMax[j] <==>
                0.0 <= limits.qdMax[j] && forall i :: 0 <= i < |s| ==> VelocityOk(s, limits, i, j)
    {
      JointMeaning(s, limits, j);
    }
    if VelocitiesOk(s, limits, |s|) {
      forall i, j | 0 <= i < |s| && 0 <= j < DOF
        ensures VelocityOk(s, limits, i, j)
      {
        assert RowOk(s, limits, i);
      }
    }
    if PeaksOk(s, limits) {
      forall i | 0 <= i < |s|
        ensures RowOk(s, limits, i)
      {
        forall j | 0 <= j < DOF
          ensures VelocityOk(s, limits, i, j)
        {
          assert PeakTo(s, j, |s|) <= limits.qdMax[j];
        }
      }
    }
  }

  /**
   * The streaming and the batch velocity verdict agree exactly when no velocity limit is
   * negative or at least one velocity could be formed.
   */
  lemma VerdictsAgreeExactly(s: seq<Timed>, limits: Limits)
    requires Samples(s) && limits.Valid()
    ensures (VelocitiesOk(s, limits, |s|) <==> PeaksOk(s, limits))
       <==> NoNegativeLimit(limits) || SomeVelocity(s)
  {
    hide VelocityOk, PeaksOk;
    VelocityMeaning(s, limits);
    if SomeVelocity(s) {
      if VelocitiesOk(s, limits, |s|) {
        OkMeansNonNegative(s, limits);
      }
    } else {
      forall i | 0 <= i < |s|
        ensures RowOk(s, limits, i)
      {
        NothingToCheck(s, limits, i);
      }
    }
  }

  lemma OkMeansNonNegative(s: seq<Timed>, limits: Limits)
    requires Samples(s) && limits.Valid() && SomeVelocity(s) && VelocitiesOk(s, limits, |s|)
    ensures NoNegativeLimit(limits)
  {
    hide VelocityAt;
    var i :| 0 <= i < |s| && VelocityAt(s, i, 0).Some?;
    assert RowOk(s, limits, i);
    forall j | 0 <= j < DOF
      ensures limits.qdMax[j] >= 0.0
    {
      SameTimes(s, i, j);
      assert VelocityOk(s, limits, i, j);
    }
  }

  lemma NothingToCheck(s: seq<Timed>, limits: Limits, i: nat)
    requires Samples(s) && limits.Valid() && !SomeVelocity(s) && i < |s|
    ensures RowOk(s, limits, i)
  {
    hide VelocityAt;
    forall j | 0 <= j < DOF
      ensures VelocityOk(s, limits, i, j)
    {
      SameTimes(s, i, j);
    }
  }

  const AtRest := [Timed(0.0, [0.0, 0.0, 0.0, 0.0, 0.0, 0.0])]
  const NoSpeed := Limits([-1.0, -1.0, -1.0, -1.0, -1.0, -1.0], [1.0, 1.0, 1.0, 1.0, 1.0, 1.0],
                          [-1.0, -1.0, -1.0, -1.0, -1.0, -1.0])

  /** One sample and negative limits: streaming accepts, the batch pass refuses. */
  lemma VerdictsDiffer()
    ensures Samples(AtRest) && NoSpeed.Valid() && VelocitiesOk(AtRest, NoSpeed, 1) && !PeaksOk(AtRest, NoSpeed)
  {
    VelocityMeaning(AtRest, NoSpeed);
    assert NoSpeed.qdMax[0] < 0.0;
    assert !NoNegativeLimit(NoSpeed);
    assert forall j :: 0 <= j < DOF ==> VelocityAt(AtRest, 0, j) == None;
  }
}
