/** What an accepted motion really keeps, in positions and times. */
module LimitMeaning {
  import opened RealMath
  import opened LimitValidation

  /** The times rise, by more than the smallest step. */
  ghost predicate Rising(s: seq<Timed>) {
    forall k :: 0 < k < |s| ==> s[k].t - s[k - 1].t > 0.000000000000001
  }

  /** Joint `j` moves no further than `speed` allows in the time between two samples. */
  predicate Moves(a: Timed, b: Timed, j: nat, speed: real)
    requires j < |a.q| && j < |b.q|
  {
    -(speed * (b.t - a.t)) <= b.q[j] - a.q[j] <= speed * (b.t - a.t)
  }

  lemma QuotientMoves(a: Timed, b: Timed, j: nat, speed: real)
    requires j < |a.q| && j < |b.q| && b.t - a.t > 0.000000000000001
    ensures Quotient(a, b, j).Some? && Quotient(a, b, j).value * (b.t - a.t) == b.q[j] - a.q[j]
    ensures Abs(Quotient(a, b, j).value) <= speed <==> Moves(a, b, j, speed)
  {
    var v, dt := Quotient(a, b, j).value, b.t - a.t;
    DivideMultiply(b.q[j] - a.q[j], dt);
    assert dt * speed == speed * dt && dt * (-speed) == -(speed * dt);
    Cancel(dt, v, speed);
    Cancel(dt, speed, v);
    Cancel(dt, v, -speed);
    Cancel(dt, -speed, v);
  }

  // ---- the limits, spelled out ----

  /** The two steps around sample `k` together. */
  predicate Passes(s: seq<Timed>, k: nat, j: nat, speed: real)
    requires 1 <= k < |s| - 1 && j < |s[k - 1].q| && j < |s[k + 1].q|
  {
    Moves(s[k - 1], s[k + 1], j, speed)
  }

  ghost predicate InRange(s: seq<Timed>, limits: Limits)
    requires Samples(s) && limits.Valid()
  {
    forall k, j :: 0 <= k < |s| && 0 <= j < DOF ==> limits.qMin[j] <= s[k].q[j] <= limits.qMax[j]
  }

  /** The first and the last step, and every pair of steps, stay below the velocity limit. */
  ghost predicate SlowEnough(s: seq<Timed>, limits: Limits)
    requires Samples(s) && limits.Valid() && |s| >= 2
  {
    forall j :: 0 <= j < DOF ==>
      && Moves(s[0], s[1], j, limits.qdMax[j]) && Moves(s[|s| - 2], s[|s| - 1], j, limits.qdMax[j])
      && forall k :: 1 <= k < |s| - 1 ==> Passes(s, k, j, limits.qdMax[j])
  }

  lemma VelocityMoves(s: seq<Timed>, limits: Limits, i: nat, j: nat)
    requires Samples(s) && limits.Valid() && |s| >= 2 && Rising(s) && i < |s| && j < DOF
    ensures var a, b := if i == 0 then 0 else i - 1, if i == |s| - 1 then i else i + 1;
            VelocityOk(s, limits, i, j) <==> Moves(s[a], s[b], j, limits.qdMax[j])
  {
    hide Moves, Quotient;
    var a, b := if i == 0 then 0 else i - 1, if i == |s| - 1 then i else i + 1;
    assert s[b].t - s[a].t > 0.000000000000001 by {
      if a + 1 < b {
        assert s[a + 1].t - s[a].t > 0.000000000000001;
      }
      assert s[b].t - s[b - 1].t > 0.000000000000001;
    }
    QuotientMoves(s[a], s[b], j, limits.qdMax[j]);
  }

  /** What both verdicts mean for samples with rising times. */
  lemma VerdictsMean(s: seq<Timed>, limits: Limits)
    requires Samples(s) && limits.Valid() && |s| >= 2 && Rising(s)
    ensures PositionsOk(s, limits, |s|) <==> InRange(s, limits)
    ensures VelocitiesOk(s, limits, |s|) <==> SlowEnough(s, limits)
  {
    hide VelocityOk, Moves, Rising;
    assert PositionsOk(s, limits, |s|) <==> InRange(s, limits);
    if VelocitiesOk(s, limits, |s|) {
      forall j | 0 <= j < DOF
        ensures Moves(s[0], s[1], j, limits.qdMax[j]) && Moves(s[|s| - 2], s[|s| - 1], j, limits.qdMax[j])
        ensures forall k :: 1 <= k < |s| - 1 ==> Passes(s, k, j, limits.qdMax[j])
      {
        assert RowOk(s, limits, 0) && RowOk(s, limits, |s| - 1);
        VelocityMoves(s, limits, 0, j);
        VelocityMoves(s, limits, |s| - 1, j);
        forall k | 1 <= k < |s| - 1
          ensures Passes(s, k, j, limits.qdMax[j])
        {
          assert RowOk(s, limits, k);
          VelocityMoves(s, limits, k, j);
        }
      }
    }
    if SlowEnough(s, limits) {
      forall i | 0 <= i < |s|
        ensures RowOk(s, limits, i)
      {
        forall j | 0 <= j < DOF
          ensures VelocityOk(s, limits, i, j)
        {
          VelocityMoves(s, limits, i, j);
          if 1 <= i < |s| - 1 {
            assert Passes(s, i, j, limits.qdMax[j]);
          }
        }
      }
    }
  }

  // ---- single steps ----

  lemma NextStep(d: real, e: real, speed: real, t0: real, t1: real, t2: real, t3: real)
    requires -(speed * (t3 - t1)) <= d + e <= speed * (t3 - t1)
    requires -(speed * (t2 + t1 - 2.0 * t0)) <= d <= speed * (t2 + t1 - 2.0 * t0)
    ensures -(speed * (t3 + t2 - 2.0 * t0)) <= e <= speed * (t3 + t2 - 2.0 * t0)
  {
    assert speed * (t3 - t1) + speed * (t2 + t1 - 2.0 * t0) == speed * (t3 + t2 - 2.0 * t0);
  }

  /**
   * A single step of an accepted motion is bounded by the velocity limit times its own time only at the
   * start; later ones may take up twice the time that has passed before them.
   */
  lemma {:induction false} StepAtMost(s: seq<Timed>, limits: Limits, k: nat, j: nat)
    requires Samples(s) && limits.Valid() && |s| >= 2 && SlowEnough(s, limits) && k + 1 < |s| && j < DOF
    ensures var bound := limits.qdMax[j] * (s[k + 1].t + s[k].t - 2.0 * s[0].t);
            -bound <= s[k + 1].q[j] - s[k].q[j] <= bound
  {
    var speed := limits.qdMax[j];
    if k == 0 {
      assert Moves(s[0], s[1], j, speed);
    } else {
      StepAtMost(s, limits, k - 1, j);
      assert Passes(s, k, j, speed);
      NextStep(s[k].q[j] - s[k - 1].q[j], s[k + 1].q[j] - s[k].q[j], speed, s[0].t, s[k - 1].t, s[k].t, s[k + 1].t);
    }
  }

  function At(t: real, q: real): Timed { Timed(t, [q, q, q, q, q, q]) }

  const Zigzag := [At(0.0, 0.0), At(1.0, 1.0), At(2.0, -2.0), At(3.0, -1.0)]
  const UnitSpeed := Limits([-2.0, -2.0, -2.0, -2.0, -2.0, -2.0], [1.0, 1.0, 1.0, 1.0, 1.0, 1.0],
                            [1.0, 1.0, 1.0, 1.0, 1.0, 1.0])

  /** A motion that both verdicts accept although its middle step is three times the velocity limit. */
  lemma TooFastAccepted()
    ensures Samples(Zigzag) && UnitSpeed.Valid() && Rising(Zigzag)
    ensures PositionsOk(Zigzag, UnitSpeed, 4) && VelocitiesOk(Zigzag, UnitSpeed, 4) && PeaksOk(Zigzag, UnitSpeed)
    ensures forall j :: 0 <= j < DOF ==> Zigzag[2].q[j] - Zigzag[1].q[j] == -3.0 * UnitSpeed.qdMax[j]
  {
    hide PeakTo, VelocityOk;
    ZigzagShape();
    assert InRange(Zigzag, UnitSpeed) && SlowEnough(Zigzag, UnitSpeed);
    VerdictsMean(Zigzag, UnitSpeed);
    VelocityMeaning(Zigzag, UnitSpeed);
  }

  lemma ZigzagShape()
    ensures Samples(Zigzag) && UnitSpeed.Valid() && Rising(Zigzag)
    ensures forall j :: 0 <= j < DOF ==>
              && Zigzag[0].q[j] == 0.0 && Zigzag[1].q[j] == 1.0 && Zigzag[2].q[j] == -2.0 && Zigzag[3].q[j] == -1.0
              && UnitSpeed.qMin[j] == -2.0 && UnitSpeed.qMax[j] == 1.0 && UnitSpeed.qdMax[j] == 1.0
  {}

  // ---- the reported numbers ----

  /** The largest step is an upper bound of all steps, and the least non-negative one. */
  lemma {:induction false} StepBounds(s: seq<Timed>, j: nat, k: nat, bound: real)
    requires k <= |s| && j < DOF && Samples(s)
    ensures StepTo(s, j, k) <= bound <==>
              0.0 <= bound && forall i :: 0 < i < k ==> Abs(s[i].q[j] - s[i - 1].q[j]) <= bound
  {
    if k >= 2 {
      StepBounds(s, j, k - 1, bound);
      assert 0.0 <= Abs(s[k - 1].q[j] - s[k - 2].q[j]);
    }
  }

  /** The gradient is the slope over the neighbouring samples, and zero where their times coincide. */
  lemma GradientMeans(s: seq<Timed>, k: nat, j: nat)
    requires k < |s| && j < DOF && Samples(s) && |s| >= 2
    ensures var a, b := if k == 0 then 0 else k - 1, if k == |s| - 1 then k else k + 1;
            var dt := s[b].t - s[a].t;
            && (Abs(dt) > 0.000000000000001 ==> GradientAt(s, k, j) * dt == s[b].q[j] - s[a].q[j])
            && (Abs(dt) <= 0.000000000000001 ==> GradientAt(s, k, j) == 0.0)
  {
    var a, b := if k == 0 then 0 else k - 1, if k == |s| - 1 then k else k + 1;
    SlopeMeans(s[a], s[b], j);
  }

  lemma SlopeMeans(a: Timed, b: Timed, j: nat)
    requires j < |a.q| && j < |b.q|
    ensures var v, dt := Quotient(a, b, j), b.t - a.t;
            && (Abs(dt) > 0.000000000000001 ==> v.Some? && v.value * dt == b.q[j] - a.q[j])
            && (Abs(dt) <= 0.000000000000001 ==> v == None)
  {
    var x, dt := b.q[j] - a.q[j], b.t - a.t;
    if dt > 0.0 {
      DivideMultiply(x, dt);
    } else if dt < 0.0 {
      NegativeQuotient(x, dt);
    }
  }

  lemma NegativeQuotient(x: real, d: real)
    requires d < 0.0
    ensures (x / d) * d == x
  {}
}
