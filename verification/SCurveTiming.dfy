module SCurveTiming {
  import opened RealMath

  /** The numbers the profile selection computes (the motion distance is 1). */
  datatype Timing = Timing(vPeak: real, aPeak: real, tJ: real, tA: real, tV: real)

  predicate ValidRequest(vMax: real, aMax: real, jMax: real) {
    vMax > 0.0 && aMax > 0.0 && jMax > 0.0
  }

  /** Velocity at which the acceleration limit is just reached. */
  function VelocityAtAcceleration(aMax: real, jMax: real): real
    requires jMax > 0.0
  {
    aMax * aMax / jMax
  }

  function RampTime(m: MathLib, vMax: real, jMax: real): real
    requires jMax > 0.0
  {
    m.sqrt(vMax / jMax)
  }

  /** Distance needed to reach `vMax` and stop again when the acceleration limit is not reached. */
  function RampDistance(m: MathLib, vMax: real, jMax: real): real
    requires jMax > 0.0
  {
    2.0 * vMax * RampTime(m, vMax, jMax)
  }

  /** The same distance when the acceleration limit is reached. */
  function PlateauDistance(vMax: real, aMax: real, jMax: real): real
    requires aMax > 0.0 && jMax > 0.0
  {
    vMax * (aMax / jMax + vMax / aMax)
  }

  /** Distance needed to reach `aMax` and stop again. */
  function ReachDistance(aMax: real, jMax: real): real
    requires jMax > 0.0
  {
    2.0 * aMax * aMax * aMax / (jMax * jMax)
  }

  /** The velocity limit is reached before the acceleration limit; the rest is cruised. */
  function VelocityLimited(vMax: real, jMax: real, tJ: real): Timing
    requires vMax > 0.0
  {
    Timing(vMax, jMax * tJ, tJ, 0.0, (1.0 - 2.0 * vMax * tJ) / vMax)
  }

  /** Neither limit is reached. */
  function JerkLimited(m: MathLib, jMax: real): Timing
    requires jMax > 0.0
  {
    var vPeak := m.pow23(m.sqrt(jMax) / 2.0);
    var tJ := m.sqrt(vPeak / jMax);
    Timing(vPeak, jMax * tJ, tJ, 0.0, 0.0)
  }

  /** Both limits are reached. */
  function FullProfile(vMax: real, aMax: real, jMax: real): Timing
    requires ValidRequest(vMax, aMax, jMax)
  {
    var tJ := aMax / jMax;
    Timing(vMax, aMax, tJ, vMax / aMax - tJ, (1.0 - PlateauDistance(vMax, aMax, jMax)) / vMax)
  }

  /** Only the acceleration limit is reached; the peak velocity solves `v*v + term*v = aMax`. */
  function AccelerationLimited(m: MathLib, aMax: real, jMax: real): Timing
    requires aMax > 0.0 && jMax > 0.0
  {
    var tJ := aMax / jMax;
    var term := aMax * aMax / jMax;
    var vPeak := (-term + m.sqrt(term * term + 4.0 * aMax)) / 2.0;
    Timing(vPeak, aMax, tJ, vPeak / aMax - tJ, 0.0)
  }

  function SelectTiming(m: MathLib, vMax: real, aMax: real, jMax: real): Timing
    requires ValidRequest(vMax, aMax, jMax)
  {
    if vMax < VelocityAtAcceleration(aMax, jMax) then
      if 1.0 >= RampDistance(m, vMax, jMax) then
        VelocityLimited(vMax, jMax, RampTime(m, vMax, jMax))
      else
        JerkLimited(m, jMax)
    else if 1.0 >= PlateauDistance(vMax, aMax, jMax) then
      FullProfile(vMax, aMax, jMax)
    else if 1.0 >= ReachDistance(aMax, jMax) then
      AccelerationLimited(m, aMax, jMax)
    else
      JerkLimited(m, jMax)
  }

  /** What every branch must deliver for the seven segments to end at rest at distance 1. */
  ghost predicate Balanced(t: Timing, jMax: real) {
    && t.tJ > 0.0 && t.tA >= 0.0 && t.tV >= 0.0 && t.vPeak > 0.0 && t.aPeak > 0.0
    && t.aPeak == jMax * t.tJ
    && t.vPeak == t.aPeak * (t.tJ + t.tA)
    && t.vPeak * (2.0 * t.tJ + t.tA + t.tV) == 1.0
  }

  ghost predicate Feasible(t: Timing, vMax: real, aMax: real, jMax: real) {
    Balanced(t, jMax) && t.vPeak <= vMax && t.aPeak <= aMax
  }

  lemma SqrtOf(m: MathLib, x: real) returns (r: real)
    requires m.SqrtLaw() && x > 0.0
    ensures r == m.sqrt(x) && r > 0.0 && r * r == x
  {
    r := m.sqrt(x);
  }

  // ---- jerk-limited branch ----

  lemma JerkLimitedNumbers(m: MathLib, jMax: real) returns (v: real, h: real)
    requires m.SqrtLaw() && m.Pow23Law() && jMax > 0.0
    ensures JerkLimited(m, jMax) == Timing(v, jMax * h, h, 0.0, 0.0)
    ensures v > 0.0 && h > 0.0 && v * v * v == jMax / 4.0 && v == jMax * h * h
  {
    var r := SqrtOf(m, jMax);
    v := m.pow23(r / 2.0);
    assert (r / 2.0) * (r / 2.0) == jMax / 4.0;
    assert v * v * v == jMax / 4.0;
    assert v > 0.0;
    DivideCompare(v, jMax, 0.0);
    h := SqrtOf(m, v / jMax);
    DivideMultiply(v, jMax);
  }

  lemma UnitDistance(v: real, h: real, j: real)
    requires v > 0.0 && h > 0.0 && j > 0.0 && v * v * v == j / 4.0 && v == j * h * h
    ensures 2.0 * v * h == 1.0
  {
    var d := 2.0 * v * h;
    calc { j * (d * d); 4.0 * (v * v) * (j * h * h); 4.0 * (v * v * v); j; }
    Cancel(j, d * d, 1.0);
    ProductPositive(v, h);
    SquareInjective(d, 1.0);
  }

  lemma JerkLimitedBalanced(m: MathLib, jMax: real) returns (v: real, h: real)
    requires m.SqrtLaw() && m.Pow23Law() && jMax > 0.0
    ensures JerkLimited(m, jMax) == Timing(v, jMax * h, h, 0.0, 0.0)
    ensures v > 0.0 && h > 0.0 && v * v * v == jMax / 4.0 && v == jMax * h * h
    ensures Balanced(JerkLimited(m, jMax), jMax)
  {
    v, h := JerkLimitedNumbers(m, jMax);
    UnitDistance(v, h, jMax);
    ProductPositive(jMax, h);
  }

  /** If reaching `vMax` takes more than the whole distance, its cube exceeds `j / 4`. */
  lemma TooFarForVelocity(vMax: real, h: real, j: real)
    requires vMax > 0.0 && h > 0.0 && j > 0.0 && vMax == j * h * h && 1.0 < 2.0 * vMax * h
    ensures j / 4.0 <= vMax * vMax * vMax
  {
    SquareStrict(1.0, 2.0 * vMax * h);
    var w := (2.0 * vMax * h) * (2.0 * vMax * h);
    ProductPositive(j, w - 1.0);
    calc { j * w; (4.0 * vMax * vMax) * (j * h * h); 4.0 * vMax * vMax * vMax; }
  }

  /** With `v = j*h*h`, staying below `aMax*aMax/j` keeps the acceleration `j*h` below `aMax`. */
  lemma AccelerationBelow(v: real, h: real, j: real, aMax: real)
    requires v > 0.0 && h > 0.0 && j > 0.0 && aMax > 0.0 && v == j * h * h && v * j <= aMax * aMax
    ensures j * h <= aMax
  {
    ProductPositive(j, h);
    calc { (j * h) * (j * h); j * (j * h * h); v * j; }
    SquareMonotone(j * h, aMax);
  }

  /** If reaching `aMax` takes more than the whole distance, the short peak stays below it. */
  lemma TooFarForAcceleration(v: real, j: real, aMax: real)
    requires v > 0.0 && j > 0.0 && aMax > 0.0 && v * v * v == j / 4.0 && j * j < 2.0 * aMax * aMax * aMax
    ensures v * j <= aMax * aMax
  {
    var a3 := aMax * aMax * aMax;
    ProductPositive(j, j);
    SquareStrict(j * j, 2.0 * a3);
    var u := v * j;
    ProductPositive(v, j);
    calc { u * u * u; (v * v * v) * (j * j * j); (j * j) * (j * j) / 4.0; }
    var b := aMax * aMax;
    calc { b * b * b; a3 * a3; (2.0 * a3) * (2.0 * a3) / 4.0; }
    CubeMonotone(u, b);
  }

  // ---- branch by branch ----

  lemma VelocityLimitedFeasible(vMax: real, aMax: real, jMax: real, h: real)
    requires ValidRequest(vMax, aMax, jMax)
    requires h > 0.0 && vMax == jMax * h * h && vMax * jMax <= aMax * aMax && 1.0 >= 2.0 * vMax * h
    ensures Feasible(VelocityLimited(vMax, jMax, h), vMax, aMax, jMax)
  {
    var t := VelocityLimited(vMax, jMax, h);
    AccelerationBelow(vMax, h, jMax, aMax);
    ProductPositive(jMax, h);
    DivideMultiply(1.0 - 2.0 * vMax * h, vMax);
    DivideCompare(1.0 - 2.0 * vMax * h, vMax, 0.0);
    assert t.vPeak * (2.0 * t.tJ + t.tA + t.tV) == 2.0 * vMax * h + vMax * t.tV;
  }

  lemma FullProfileFeasible(vMax: real, aMax: real, jMax: real)
    requires ValidRequest(vMax, aMax, jMax)
    requires aMax * aMax <= vMax * jMax && PlateauDistance(vMax, aMax, jMax) <= 1.0
    ensures Feasible(FullProfile(vMax, aMax, jMax), vMax, aMax, jMax)
  {
    var t := FullProfile(vMax, aMax, jMax);
    var ratio := vMax / aMax;
    DivideMultiply(aMax, jMax);
    DivideMultiply(vMax, aMax);
    DivideCompare(aMax, jMax, 0.0);
    PlateauNonNegative(vMax, aMax, jMax, t.tJ, ratio);
    var d := PlateauDistance(vMax, aMax, jMax);
    DivideMultiply(1.0 - d, vMax);
    DivideCompare(1.0 - d, vMax, 0.0);
    assert t.vPeak * (2.0 * t.tJ + t.tA + t.tV) == vMax * (t.tJ + ratio) + vMax * t.tV;
  }

  lemma PlateauNonNegative(v: real, aMax: real, jMax: real, tJ: real, ratio: real)
    requires aMax > 0.0 && jMax > 0.0 && aMax * aMax <= v * jMax
    requires jMax * tJ == aMax && aMax * ratio == v
    ensures tJ <= ratio
  {
    calc { (aMax * jMax) * tJ; aMax * (jMax * tJ); aMax * aMax; }
    calc { (aMax * jMax) * ratio; jMax * (aMax * ratio); v * jMax; }
    ProductPositive(aMax, jMax);
    Cancel(aMax * jMax, tJ, ratio);
  }

  /** `x * (x + term)` is strictly increasing for positive `x`. */
  lemma RootStrict(v: real, w: real, term: real)
    requires 0.0 < v < w && term > 0.0
    ensures v * (v + term) < w * (w + term)
  {
    SquareStrict(v, w);
    ProductPositive(w - v, term);
  }

  lemma RootNumbers(m: MathLib, aMax: real, term: real) returns (v: real)
    requires m.SqrtLaw() && aMax > 0.0 && term > 0.0
    ensures v == (-term + m.sqrt(term * term + 4.0 * aMax)) / 2.0
    ensures v > 0.0 && v * (v + term) == aMax
  {
    ProductPositive(term, term);
    var root := SqrtOf(m, term * term + 4.0 * aMax);
    v := (-term + root) / 2.0;
    SquareMonotone(root, term);
  }

  lemma TermBound(aMax: real, jMax: real, term: real)
    requires aMax > 0.0 && jMax > 0.0 && jMax * term == aMax * aMax
    requires 2.0 * aMax * aMax * aMax <= jMax * jMax
    ensures 2.0 * term * term <= aMax
  {
    calc { (jMax * jMax) * (2.0 * term * term); 2.0 * (jMax * term) * (jMax * term);
        aMax * (2.0 * aMax * aMax * aMax); }
    ScaleLe(aMax, 2.0 * aMax * aMax * aMax, jMax * jMax);
    ProductPositive(jMax, jMax);
    Cancel(jMax * jMax, 2.0 * term * term, aMax);
  }

  lemma PeakDistance(aMax: real, jMax: real, term: real, w: real)
    requires aMax > 0.0 && jMax > 0.0 && jMax * term == aMax * aMax
    ensures aMax * PlateauDistance(w, aMax, jMax) == w * (w + term)
  {
    DivideMultiply(aMax, jMax);
    DivideMultiply(w, aMax);
    PlateauTerm(aMax, jMax, term, aMax / jMax);
    calc { aMax * PlateauDistance(w, aMax, jMax); w * (aMax * (aMax / jMax) + aMax * (w / aMax)); w * (term + w); }
  }

  lemma PlateauTerm(aMax: real, jMax: real, term: real, tJ: real)
    requires jMax > 0.0 && jMax * term == aMax * aMax && jMax * tJ == aMax
    ensures aMax * tJ == term
  {
    Cancel(jMax, aMax * tJ, term);
  }

  lemma RootAtLeastTerm(aMax: real, jMax: real, term: real, v: real)
    requires aMax > 0.0 && jMax > 0.0 && jMax * term == aMax * aMax && term > 0.0
    requires 2.0 * aMax * aMax * aMax <= jMax * jMax && v > 0.0 && v * (v + term) == aMax
    ensures term <= v
  {
    TermBound(aMax, jMax, term);
    if v < term {
      RootStrict(v, term, term);
    }
  }

  lemma PositiveTerm(aMax: real, jMax: real) returns (term: real)
    requires aMax > 0.0 && jMax > 0.0
    ensures term == aMax * aMax / jMax && term > 0.0 && jMax * term == aMax * aMax
  {
    var square := PositiveProduct(aMax, aMax);
    PositiveQuotient(square, jMax);
    term := square / jMax;
  }

  lemma RootBelowVelocity(vMax: real, aMax: real, jMax: real, term: real, v: real)
    requires ValidRequest(vMax, aMax, jMax) && jMax * term == aMax * aMax && 0.0 < term <= v
    requires 1.0 < PlateauDistance(vMax, aMax, jMax) && v * (v + term) == aMax
    ensures v <= vMax
  {
    var d := PlateauDistance(vMax, aMax, jMax);
    PeakDistance(aMax, jMax, term, vMax);
    ProductPositive(aMax, d - 1.0);
    if vMax < v {
      RootStrict(vMax, v, term);
    }
  }

  lemma RootBalanced(aMax: real, jMax: real, term: real, t: Timing)
    requires aMax > 0.0 && jMax > 0.0 && jMax * term == aMax * aMax && 0.0 < term <= t.vPeak
    requires t.vPeak * (t.vPeak + term) == aMax
    requires t.aPeak == aMax && t.tJ == aMax / jMax && t.tA == t.vPeak / aMax - t.tJ && t.tV == 0.0
    ensures Balanced(t, jMax)
  {
    var v := t.vPeak;
    var ratio := v / aMax;
    DivideMultiply(aMax, jMax);
    DivideMultiply(v, aMax);
    DivideCompare(aMax, jMax, 0.0);
    ScaleLe(jMax, term, v);
    PlateauNonNegative(v, aMax, jMax, t.tJ, ratio);
    PeakDistance(aMax, jMax, term, v);
    Cancel(aMax, PlateauDistance(v, aMax, jMax), 1.0);
  }

  lemma AccelerationLimitedFeasible(m: MathLib, vMax: real, aMax: real, jMax: real)
    requires m.SqrtLaw() && ValidRequest(vMax, aMax, jMax)
    requires 1.0 < PlateauDistance(vMax, aMax, jMax)
    requires 2.0 * aMax * aMax * aMax <= jMax * jMax
    ensures Feasible(AccelerationLimited(m, aMax, jMax), vMax, aMax, jMax)
  {
    var t := AccelerationLimited(m, aMax, jMax);
    var term := PositiveTerm(aMax, jMax);
    var v := RootNumbers(m, aMax, term);
    assert t.vPeak == v;
    RootAtLeastTerm(aMax, jMax, term, v);
    RootBelowVelocity(vMax, aMax, jMax, term, v);
    RootBalanced(aMax, jMax, term, t);
  }

  lemma JerkLimitedBelowVelocity(m: MathLib, vMax: real, aMax: real, jMax: real, h: real)
    requires m.SqrtLaw() && m.Pow23Law() && ValidRequest(vMax, aMax, jMax)
    requires h > 0.0 && vMax == jMax * h * h && vMax * jMax <= aMax * aMax && 1.0 < 2.0 * vMax * h
    ensures Feasible(JerkLimited(m, jMax), vMax, aMax, jMax)
  {
    var v, w := JerkLimitedBalanced(m, jMax);
    TooFarForVelocity(vMax, h, jMax);
    CubeMonotone(v, vMax);
    ScaleLe(jMax, v, vMax);
    AccelerationBelow(v, w, jMax, aMax);
  }

  lemma JerkLimitedBelowAcceleration(m: MathLib, vMax: real, aMax: real, jMax: real)
    requires m.SqrtLaw() && m.Pow23Law() && ValidRequest(vMax, aMax, jMax)
    requires aMax * aMax <= vMax * jMax && jMax * jMax < 2.0 * aMax * aMax * aMax
    ensures Feasible(JerkLimited(m, jMax), vMax, aMax, jMax)
  {
    var v, w := JerkLimitedBalanced(m, jMax);
    TooFarForAcceleration(v, jMax, aMax);
    AccelerationBelow(v, w, jMax, aMax);
    Cancel(jMax, v, vMax);
  }

  lemma RampTimeSquare(m: MathLib, vMax: real, jMax: real)
    requires m.SqrtLaw() && vMax > 0.0 && jMax > 0.0
    ensures var h := RampTime(m, vMax, jMax); h > 0.0 && vMax == jMax * h * h
  {
    DivideCompare(vMax, jMax, 0.0);
    var h := SqrtOf(m, vMax / jMax);
    DivideMultiply(vMax, jMax);
  }

  lemma VelocityFirstFeasible(m: MathLib, vMax: real, aMax: real, jMax: real)
    requires m.SqrtLaw() && m.Pow23Law() && ValidRequest(vMax, aMax, jMax)
    requires vMax < VelocityAtAcceleration(aMax, jMax)
    ensures 1.0 >= RampDistance(m, vMax, jMax)
            ==> Feasible(VelocityLimited(vMax, jMax, RampTime(m, vMax, jMax)), vMax, aMax, jMax)
    ensures 1.0 < RampDistance(m, vMax, jMax) ==> Feasible(JerkLimited(m, jMax), vMax, aMax, jMax)
  {
    DivideCompare(aMax * aMax, jMax, vMax);
    assert vMax * jMax <= aMax * aMax;
    var h := RampTime(m, vMax, jMax);
    RampTimeSquare(m, vMax, jMax);
    assert RampDistance(m, vMax, jMax) == 2.0 * vMax * h;
    hide RampTime, RampDistance, VelocityAtAcceleration, VelocityLimited, JerkLimited, Feasible;
    if 1.0 >= RampDistance(m, vMax, jMax) {
      VelocityLimitedFeasible(vMax, aMax, jMax, h);
    } else {
      JerkLimitedBelowVelocity(m, vMax, aMax, jMax, h);
    }
  }

  lemma LateFeasible(m: MathLib, vMax: real, aMax: real, jMax: real)
    requires m.SqrtLaw() && m.Pow23Law() && ValidRequest(vMax, aMax, jMax)
    requires vMax >= VelocityAtAcceleration(aMax, jMax) && 1.0 < PlateauDistance(vMax, aMax, jMax)
    ensures 1.0 >= ReachDistance(aMax, jMax) ==> Feasible(AccelerationLimited(m, aMax, jMax), vMax, aMax, jMax)
    ensures 1.0 < ReachDistance(aMax, jMax) ==> Feasible(JerkLimited(m, jMax), vMax, aMax, jMax)
  {
    DivideCompare(aMax * aMax, jMax, vMax);
    ProductPositive(jMax, jMax);
    DivideCompare(2.0 * aMax * aMax * aMax, jMax * jMax, 1.0);
    if 1.0 >= ReachDistance(aMax, jMax) {
      AccelerationLimitedFeasible(m, vMax, aMax, jMax);
    } else {
      JerkLimitedBelowAcceleration(m, vMax, aMax, jMax);
    }
  }

  /** For every positive request the chosen branch balances and respects both limits. */
  lemma TimingFeasible(m: MathLib, vMax: real, aMax: real, jMax: real)
    requires m.SqrtLaw() && m.Pow23Law() && ValidRequest(vMax, aMax, jMax)
    ensures Feasible(SelectTiming(m, vMax, aMax, jMax), vMax, aMax, jMax)
  {
    if vMax < VelocityAtAcceleration(aMax, jMax) {
      VelocityFirstFeasible(m, vMax, aMax, jMax);
    } else if 1.0 >= PlateauDistance(vMax, aMax, jMax) {
      DivideCompare(aMax * aMax, jMax, vMax);
      FullProfileFeasible(vMax, aMax, jMax);
    } else {
      LateFeasible(m, vMax, aMax, jMax);
    }
  }
}
