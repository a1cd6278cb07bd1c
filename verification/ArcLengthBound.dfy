/** The interpolated path moves no faster than its arc length. */
module ArcLengthBound {
  import opened RealMath
  import opened Vectors
  import opened SampleGrid
  import opened ArcLength

  ghost predicate Ordered(l: seq<real>) {
    forall i :: 1 <= i < |l| ==> l[i - 1] <= l[i]
  }

  /** Neighbouring knots are no further apart in space than in arc length. */
  ghost predicate Rectified(m: MathLib, path: seq<Vec3>, l: seq<real>) {
    && |path| == |l| > 0 && Ordered(l)
    && forall i :: 1 <= i < |path| ==> Distance(m, path[i - 1], path[i]) <= l[i] - l[i - 1]
  }

  /** The interpolation without the guard against short gaps. */
  ghost function Unguarded(path: seq<Vec3>, l: seq<real>, q: real): Vec3
    requires |path| == |l| > 0
  {
    if q <= l[0] then path[0]
    else if q >= l[|l| - 1] then path[|path| - 1]
    else Blend(path, l, Upper(l, q, 1), q)
  }

  lemma UpperStrict(l: seq<real>, q: real)
    requires |l| > 1 && l[0] < q < l[|l| - 1]
    ensures var i := Upper(l, q, 1); l[i - 1] < q <= l[i]
  {}

  lemma FractionRange(l0: real, l1: real, q1: real, q2: real)
    requires l0 < l1 && l0 <= q1 <= q2 <= l1
    ensures 0.0 <= (q1 - l0) / (l1 - l0) <= (q2 - l0) / (l1 - l0) <= 1.0
    ensures ((q2 - l0) / (l1 - l0) - (q1 - l0) / (l1 - l0)) * (l1 - l0) == q2 - q1
    ensures (l0 - l0) / (l1 - l0) == 0.0 && (l1 - l0) / (l1 - l0) == 1.0
  {
    var d := l1 - l0;
    DivideMultiply(q1 - l0, d);
    DivideMultiply(q2 - l0, d);
    DivideCompare(q1 - l0, d, 0.0);
    DivideMultiply(d, d);
    Cancel(d, (q1 - l0) / d, (q2 - l0) / d);
    Cancel(d, (q2 - l0) / d, 1.0);
    Cancel(d, (q1 - l0) / d, 0.0);
    Cancel(d, 0.0, (q1 - l0) / d);
    Cancel(d, d / d, 1.0);
  }

  lemma BlendChord(m: MathLib, path: seq<Vec3>, l: seq<real>, i: nat, q1: real, q2: real)
    requires m.SqrtLaw() && Rectified(m, path, l) && 1 <= i < |l| && l[i - 1] < l[i]
    requires l[i - 1] <= q1 <= q2 <= l[i]
    ensures Distance(m, Blend(path, l, i, q1), Blend(path, l, i, q2)) <= q2 - q1
  {
    hide Lerp, Distance;
    var l0, l1 := l[i - 1], l[i];
    var u, w := (q1 - l0) / (l1 - l0), (q2 - l0) / (l1 - l0);
    FractionRange(l0, l1, q1, q2);
    LerpDistance(m, path[i - 1], path[i], u, w);
    ScaleLe(w - u, Distance(m, path[i - 1], path[i]), l1 - l0);
  }

  lemma LerpEnds(a: Vec3, b: Vec3)
    ensures Lerp(a, b, 0.0) == a && Lerp(a, b, 1.0) == b
  {}

  lemma BlendEnds(path: seq<Vec3>, l: seq<real>, i: nat)
    requires |path| == |l| && 1 <= i < |l| && l[i - 1] < l[i]
    ensures Blend(path, l, i, l[i - 1]) == path[i - 1] && Blend(path, l, i, l[i]) == path[i]
  {
    hide Lerp;
    FractionRange(l[i - 1], l[i], l[i - 1], l[i]);
    LerpEnds(path[i - 1], path[i]);
  }

  lemma KnotChain(m: MathLib, path: seq<Vec3>, l: seq<real>, i: nat, k: nat)
    requires m.SqrtLaw() && Rectified(m, path, l) && i <= k < |l|
    ensures l[i] <= l[k] && Distance(m, path[i], path[k]) <= l[k] - l[i]
  {
    hide Distance;
    if i < k {
      KnotChain(m, path, l, i, k - 1);
      DistanceTriangle(m, path[i], path[k - 1], path[k]);
    } else {
      DistanceSymmetric(m, path[i], path[i]);
    }
  }

  lemma UpperFirst(l: seq<real>, q: real, from: nat, k: nat)
    requires from <= k < |l| && q <= l[|l| - 1]
    ensures q <= l[k] ==> Upper(l, q, from) <= k
    ensures k < Upper(l, q, from) ==> l[k] < q
    decreases k - from
  {
    if from < k && l[from] < q {
      UpperFirst(l, q, from + 1, k);
    }
  }

  ghost predicate Inside(l: seq<real>, q: real)
    requires |l| > 0
  {
    l[0] < q < l[|l| - 1]
  }

  lemma GapEnds(m: MathLib, path: seq<Vec3>, l: seq<real>, q: real)
    requires m.SqrtLaw() && Rectified(m, path, l) && Inside(l, q)
    ensures var i := Upper(l, q, 1);
            && l[i - 1] < q <= l[i]
            && Distance(m, path[i - 1], Unguarded(path, l, q)) <= q - l[i - 1]
            && Distance(m, Unguarded(path, l, q), path[i]) <= l[i] - q
  {
    hide Distance, Blend;
    UpperStrict(l, q);
    var i := Upper(l, q, 1);
    BlendEnds(path, l, i);
    BlendChord(m, path, l, i, l[i - 1], q);
    BlendChord(m, path, l, i, q, l[i]);
  }

  lemma ForwardKnot(m: MathLib, path: seq<Vec3>, l: seq<real>, q: real, k: nat)
    requires m.SqrtLaw() && Rectified(m, path, l) && k < |l| && l[0] <= q <= l[k]
    ensures Distance(m, Unguarded(path, l, q), path[k]) <= l[k] - q
  {
    hide Distance, Blend;
    var last := |l| - 1;
    KnotChain(m, path, l, 0, k);
    KnotChain(m, path, l, k, last);
    DistanceSymmetric(m, path[k], path[last]);
    if Inside(l, q) {
      var i := Upper(l, q, 1);
      GapEnds(m, path, l, q);
      UpperFirst(l, q, 1, k);
      KnotChain(m, path, l, i, k);
      DistanceTriangle(m, Unguarded(path, l, q), path[i], path[k]);
    }
  }

  lemma BackwardKnot(m: MathLib, path: seq<Vec3>, l: seq<real>, q: real, k: nat)
    requires m.SqrtLaw() && Rectified(m, path, l) && k < |l| && l[k] <= q <= l[|l| - 1]
    ensures Distance(m, path[k], Unguarded(path, l, q)) <= q - l[k]
  {
    hide Distance, Blend;
    var last := |l| - 1;
    KnotChain(m, path, l, 0, k);
    KnotChain(m, path, l, k, last);
    DistanceSymmetric(m, path[0], path[k]);
    if Inside(l, q) {
      var i := Upper(l, q, 1);
      GapEnds(m, path, l, q);
      if k < i {
        KnotChain(m, path, l, k, i - 1);
        DistanceTriangle(m, path[k], path[i - 1], Unguarded(path, l, q));
      } else {
        KnotChain(m, path, l, i, k);
        DistanceSymmetric(m, path[i], path[k]);
        DistanceSymmetric(m, Unguarded(path, l, q), path[i]);
        DistanceTriangle(m, path[k], path[i], Unguarded(path, l, q));
      }
    }
  }

  lemma UnguardedInside(m: MathLib, path: seq<Vec3>, l: seq<real>, q1: real, q2: real)
    requires m.SqrtLaw() && Rectified(m, path, l) && l[0] <= q1 <= q2 <= l[|l| - 1]
    ensures Distance(m, Unguarded(path, l, q1), Unguarded(path, l, q2)) <= q2 - q1
  {
    hide Distance, Blend;
    var last := |l| - 1;
    if Inside(l, q1) && Inside(l, q2) {
      var i, k := Upper(l, q1, 1), Upper(l, q2, 1);
      UpperStrict(l, q1);
      UpperStrict(l, q2);
      if i == k {
        BlendChord(m, path, l, i, q1, q2);
      } else {
        UpperFirst(l, q2, 1, i);
        UpperFirst(l, q1, 1, k);
        Through(m, path, l, q1, q2, i);
      }
    } else if q1 == l[0] {
      Through(m, path, l, q1, q2, 0);
    } else {
      Through(m, path, l, q1, q2, last);
    }
  }

  lemma Through(m: MathLib, path: seq<Vec3>, l: seq<real>, q1: real, q2: real, k: nat)
    requires m.SqrtLaw() && Rectified(m, path, l) && l[0] <= q1 <= q2 <= l[|l| - 1]
    requires k < |l| && q1 <= l[k] <= q2
    ensures Distance(m, Unguarded(path, l, q1), Unguarded(path, l, q2)) <= q2 - q1
  {
    hide Distance, Unguarded;
    ForwardKnot(m, path, l, q1, k);
    BackwardKnot(m, path, l, q2, k);
    DistanceTriangle(m, Unguarded(path, l, q1), path[k], Unguarded(path, l, q2));
  }

  /** Without the guard the path is 1-Lipschitz, clamped ends included. */
  lemma UnguardedLipschitz(m: MathLib, path: seq<Vec3>, l: seq<real>, q1: real, q2: real)
    requires m.SqrtLaw() && Rectified(m, path, l) && q1 <= q2
    ensures Distance(m, Unguarded(path, l, q1), Unguarded(path, l, q2)) <= q2 - q1
  {
    hide Distance, Blend;
    var last := |l| - 1;
    KnotChain(m, path, l, 0, last);
    if q2 <= l[0] || l[last] <= q1 {
      DistanceSymmetric(m, path[0], path[0]);
      DistanceSymmetric(m, path[last], path[last]);
    } else {
      UnguardedInside(m, path, l, Max(q1, l[0]), Min(q2, l[last]));
    }
  }

  // ---- the guard and the resampling ----

  ghost predicate HasShortGap(l: seq<real>) {
    exists i :: 1 <= i < |l| && 0.0 < l[i] - l[i - 1] < MIN_GAP
  }

  /** What the guard against short gaps can cost: nothing unless there is one. */
  ghost function GuardError(l: seq<real>): real {
    if HasShortGap(l) then MIN_GAP else 0.0
  }

  ghost function ExactKnots(path: seq<Vec3>, l: seq<real>, knots: seq<real>): (e: seq<Vec3>)
    requires |path| == |l| > 0
    ensures |e| == |knots|
  {
    seq(|knots|, i requires 0 <= i < |knots| => Unguarded(path, l, knots[i]))
  }

  lemma GuardClose(m: MathLib, path: seq<Vec3>, l: seq<real>, q: real)
    requires m.SqrtLaw() && Rectified(m, path, l)
    ensures Distance(m, Interpolated(path, l, q), Unguarded(path, l, q)) <= GuardError(l)
  {
    hide Distance, Blend;
    DistanceSymmetric(m, Unguarded(path, l, q), Unguarded(path, l, q));
    if Inside(l, q) {
      GapEnds(m, path, l, q);
    }
  }

  lemma ExactKnotsRectified(m: MathLib, path: seq<Vec3>, l: seq<real>, knots: seq<real>)
    requires m.SqrtLaw() && Rectified(m, path, l) && Ordered(knots) && |knots| > 0
    ensures Rectified(m, ExactKnots(path, l, knots), knots)
  {
    hide Distance, Unguarded;
    forall i | 1 <= i < |knots|
      ensures Distance(m, ExactKnots(path, l, knots)[i - 1], ExactKnots(path, l, knots)[i]) <= knots[i] - knots[i - 1]
    {
      UnguardedLipschitz(m, path, l, knots[i - 1], knots[i]);
    }
  }

  /** Two polylines over the same knots whose corners are close. */
  ghost predicate CornersClose(m: MathLib, r: seq<Vec3>, e: seq<Vec3>, bound: real) {
    |r| == |e| && forall i :: 0 <= i < |r| ==> Distance(m, r[i], e[i]) <= bound
  }

  lemma BlendClose(m: MathLib, r: seq<Vec3>, e: seq<Vec3>, l: seq<real>, i: nat, q: real, bound: real)
    requires m.SqrtLaw() && CornersClose(m, r, e, bound)
    requires |e| == |l| && 1 <= i < |l| && l[i - 1] < q <= l[i]
    ensures Distance(m, Blend(r, l, i, q), Blend(e, l, i, q)) <= bound
  {
    hide Distance, Lerp;
    FractionRange(l[i - 1], l[i], q, q);
    LerpPerturbed(m, r[i - 1], r[i], e[i - 1], e[i], (q - l[i - 1]) / (l[i] - l[i - 1]), bound);
  }

  lemma InterpolatedClose(m: MathLib, r: seq<Vec3>, e: seq<Vec3>, l: seq<real>, q: real, bound: real)
    requires m.SqrtLaw() && Rectified(m, e, l) && CornersClose(m, r, e, bound)
    ensures Distance(m, Interpolated(r, l, q), Unguarded(e, l, q)) <= bound + GuardError(l)
  {
    hide Distance, Blend;
    if Inside(l, q) {
      var i := Upper(l, q, 1);
      GapEnds(m, e, l, q);
      BlendClose(m, r, e, l, i, q, bound);
      DistanceTriangle(m, r[i - 1], e[i - 1], Unguarded(e, l, q));
    }
  }

  lemma CumulativeRectified(m: MathLib, path: seq<Vec3>)
    requires m.SqrtLaw() && |path| > 0
    ensures Rectified(m, path, CumulativeAll(m, path))
  {
    forall i | 1 <= i < |path|
      ensures Cumulative(m, path, i - 1) <= Cumulative(m, path, i)
    {
      CumulativeMonotone(m, path, i - 1, i);
    }
  }

  lemma KnotsOrdered(n: nat, total: real, spacing: real)
    requires total >= 0.0 && spacing > 0.0 && IsSampleCount(n, total, spacing)
    ensures Ordered(Knots(n, total, spacing))
  {
    forall i | 1 <= i < n
      ensures Knots(n, total, spacing)[i - 1] <= Knots(n, total, spacing)[i]
    {
      SampleTimes(n, total, spacing, i - 1);
    }
  }

  /** Total allowance for the guard, in the original and in the resampled polyline. */
  ghost function PathError(m: MathLib, path: seq<Vec3>, knots: seq<real>): real {
    GuardError(CumulativeAll(m, path)) + GuardError(knots)
  }

  /**
   * Positions looked up on the resampled path are no further apart than their arc lengths,
   * up to the guard against gaps shorter than `MIN_GAP`.
   */
  lemma ResampledLipschitz(m: MathLib, path: seq<Vec3>, spacing: real, info: ArcLengthInfo,
                           sOriginal: seq<real>, sNew: seq<real>, resampled: seq<Vec3>, q1: real, q2: real)
    requires m.SqrtLaw() && spacing > 0.0 && q1 <= q2
    requires Parameterized(m, path, spacing, info, sOriginal, sNew, resampled)
    ensures Distance(m, Interpolated(resampled, sNew, q1), Interpolated(resampled, sNew, q2))
         <= (q2 - q1) + 2.0 * PathError(m, path, sNew)
  {
    hide Distance, Interpolated, Unguarded, GuardError;
    CumulativeRectified(m, path);
    CumulativeMonotone(m, path, 0, |path| - 1);
    KnotsOrdered(info.count, info.totalLength, spacing);
    var e := ExactKnots(path, sOriginal, sNew);
    ExactKnotsRectified(m, path, sOriginal, sNew);
    var bound := GuardError(sOriginal);
    forall i | 0 <= i < |sNew|
      ensures Distance(m, resampled[i], e[i]) <= bound
    {
      GuardClose(m, path, sOriginal, sNew[i]);
    }
    InterpolatedClose(m, resampled, e, sNew, q1, bound);
    InterpolatedClose(m, resampled, e, sNew, q2, bound);
    UnguardedLipschitz(m, e, sNew, q1, q2);
    var a, b := Interpolated(resampled, sNew, q1), Unguarded(e, sNew, q1);
    var c, d := Unguarded(e, sNew, q2), Interpolated(resampled, sNew, q2);
    DistanceTriangle(m, a, b, d);
    DistanceTriangle(m, b, c, d);
    DistanceSymmetric(m, d, c);
  }
}
