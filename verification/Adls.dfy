/** Adaptive damped least-squares inverse kinematics over an abstract arm. */
module Adls {
  import opened RealMath
  import opened LinearSolve
  import opened Singularity

  const ITERATIONS := 1000
  const POSITION_TOLERANCE := 0.0001
  const ORIENTATION_TOLERANCE := 0.0001
  const STEP := 0.5

  datatype Parameters = Parameters(lambdaMax: real, sigmaThreshold: real)

  /** Joint limits, and the pose error towards one fixed target with its Jacobian. */
  datatype Arm = Arm(qMin: seq<real>, qMax: seq<real>, error: seq<real> -> seq<real>, jacobian: seq<real> -> Matrix)
  {
    ghost predicate Valid() {
      && |qMin| == DOF && |qMax| == DOF && (forall i :: 0 <= i < DOF ==> qMin[i] <= qMax[i])
      && (forall q :: |error(q)| == DOF)
      && (forall q :: IsMatrix(jacobian(q), DOF))
    }

    ghost predicate InLimits(q: seq<real>)
      requires |qMin| == DOF && |qMax| == DOF
    {
      |q| == DOF && forall i :: 0 <= i < DOF ==> qMin[i] <= q[i] <= qMax[i]
    }

    function Clamped(q: seq<real>): (r: seq<real>)
      requires |qMin| == DOF && |qMax| == DOF && |q| == DOF
      ensures |r| == DOF
    {
      seq(DOF, i requires 0 <= i < DOF => ClampValue(q[i], qMin[i], qMax[i]))
    }
  }

  function ClampValue(value: real, minimum: real, maximum: real): real {
    if value < minimum then minimum else if value > maximum then maximum else value
  }

  /** Clamping moves a value no further than anything else that brings it between the limits. */
  lemma ClampNearest(value: real, minimum: real, maximum: real, y: real)
    requires minimum <= y <= maximum
    ensures minimum <= ClampValue(value, minimum, maximum) <= maximum
    ensures Abs(ClampValue(value, minimum, maximum) - value) <= Abs(y - value)
    ensures minimum <= value <= maximum ==> ClampValue(value, minimum, maximum) == value
  {}

  function Norm3(m: MathLib, x: real, y: real, z: real): real {
    m.sqrt(x * x + y * y + z * z)
  }

  function PositionError(m: MathLib, e: seq<real>): real
    requires |e| == DOF
  {
    Norm3(m, e[0], e[1], e[2])
  }

  function OrientationError(m: MathLib, e: seq<real>): real
    requires |e| == DOF
  {
    Norm3(m, e[3], e[4], e[5])
  }

  predicate WithinTolerance(m: MathLib, e: seq<real>)
    requires |e| == DOF
  {
    PositionError(m, e) <= POSITION_TOLERANCE && OrientationError(m, e) <= ORIENTATION_TOLERANCE
  }

  /** Both errors at most a tenth of a millimetre and of a milliradian, in squares. */
  lemma ToleranceMeans(m: MathLib, e: seq<real>)
    requires m.SqrtLaw() && |e| == DOF
    ensures WithinTolerance(m, e) <==>
              && e[0] * e[0] + e[1] * e[1] + e[2] * e[2] <= 0.0001 * 0.0001
              && e[3] * e[3] + e[4] * e[4] + e[5] * e[5] <= 0.0001 * 0.0001
  {
    hide Norm3;
    NormWithin(m, e[0], e[1], e[2]);
    NormWithin(m, e[3], e[4], e[5]);
  }

  lemma NormWithin(m: MathLib, x: real, y: real, z: real)
    requires m.SqrtLaw()
    ensures Norm3(m, x, y, z) <= 0.0001 <==> x * x + y * y + z * z <= 0.0001 * 0.0001
  {
    SumOfSquares(x, y, z);
    RootWithin(m, x * x + y * y + z * z);
  }

  lemma SumOfSquares(x: real, y: real, z: real)
    ensures x * x + y * y + z * z >= 0.0
  {}

  lemma RootWithin(m: MathLib, k: real)
    requires m.SqrtLaw() && k >= 0.0
    ensures m.sqrt(k) <= 0.0001 <==> k <= 0.0001 * 0.0001
  {
    var r := m.sqrt(k);
    SquareMonotone(r, 0.0001);
  }

  /** No damping far from singularities, then growing to its maximum. */
  function Damping(m: MathLib, p: Parameters, sigma: real): real
    requires p.sigmaThreshold > 0.0
  {
    if sigma > p.sigmaThreshold then 0.0
    else
      var ratio := sigma / p.sigmaThreshold;
      var inside := 1.0 - ratio * ratio;
      p.lambdaMax * m.sqrt(if inside < 0.0 then 0.0 else inside)
  }

  // ---- the damped normal equations ----

  function SystemEntry(u: Matrix, damping: real, i: nat, k: nat): real
    requires IsMatrix(u, DOF) && i < DOF && k < DOF
  {
    if i == k then Dot(u[i], u[k]) + damping else Dot(u[i], u[k])
  }

  /** `J'J + damping I`, with `J'e` as right-hand side; `u` are the columns of `J`. */
  function NormalSystem(u: Matrix, damping: real, e: seq<real>): (v: Matrix)
    requires IsMatrix(u, DOF) && |e| == DOF
    ensures Shape(v, DOF)
  {
    seq(DOF, i requires 0 <= i < DOF => seq(DOF, k requires 0 <= k < DOF => SystemEntry(u, damping, i, k))
        + [Dot(u[i], e)])
  }

  /** `dq` solves the damped normal equations. */
  ghost predicate IsUpdate(j: Matrix, lambda: real, e: seq<real>, dq: seq<real>)
    requires IsMatrix(j, DOF) && |e| == DOF
  {
    |dq| == DOF && Solves(NormalSystem(Columns(j, DOF), Times(lambda, lambda), e), dq, DOF)
  }

  lemma {:induction false} SumPrefix(x: seq<real>, y: seq<real>, tail: seq<real>, hi: nat)
    requires hi <= |x| && hi <= |y|
    ensures Sum(x + tail, y, 0, hi) == Sum(x, y, 0, hi)
  {
    if hi > 0 {
      SumPrefix(x, y, tail, hi - 1);
    }
  }

  /** One equation: `<u_i, J d> + damping d_i == <u_i, e>`. */
  lemma NormalRow(u: Matrix, damping: real, e: seq<real>, d: seq<real>, i: nat)
    requires IsMatrix(u, DOF) && |e| == DOF && |d| == DOF && Solves(NormalSystem(u, damping, e), d, DOF) && i < DOF
    ensures Dot(u[i], Image(u, d, DOF)) + Times(damping, d[i]) == Dot(u[i], e)
  {
    hide Dot, Sum, Image, Lin;
    var gram, row := DotsWith(u, u[i], DOF), NormalSystem(u, damping, e)[i];
    forall k | 0 <= k < DOF
      ensures row[k] == Comb(1.0, gram, damping, Basis(DOF, i))[k]
    {
      DotSymmetric(u[i], u[k]);
      LinUnit(gram[k], damping);
    }
    assert row == Comb(1.0, gram, damping, Basis(DOF, i)) + [Dot(u[i], e)];
    SumPrefix(Comb(1.0, gram, damping, Basis(DOF, i)), d, [Dot(u[i], e)], DOF);
    SumComb(1.0, gram, damping, Basis(DOF, i), d, DOF);
    SumBasis(DOF, i, d, DOF);
    SumSymmetric(gram, d, DOF);
    ImageDot(u, d, u[i], DOF);
    DotSymmetric(u[i], Image(u, d, DOF));
    LinOne(Sum(gram, d, 0, DOF), damping, d[i]);
  }

  lemma LinUnit(x: real, y: real)
    ensures Lin(1.0, x, y, 1.0) == x + y && Lin(1.0, x, y, 0.0) == x
  {}

  /** The normal equations tested against any direction `w`. */
  lemma NormalTest(u: Matrix, damping: real, e: seq<real>, d: seq<real>, w: seq<real>)
    requires IsMatrix(u, DOF) && |e| == DOF && |d| == DOF && |w| == DOF && Solves(NormalSystem(u, damping, e), d, DOF)
    ensures Dot(Image(u, w, DOF), Image(u, d, DOF)) + Times(damping, Dot(w, d)) == Dot(Image(u, w, DOF), e)
  {
    hide Sum, Image, Lin, Solves, NormalSystem;
    var z := Image(u, d, DOF);
    ImageDot(u, w, z, DOF);
    ImageDot(u, w, e, DOF);
    forall i | 0 <= i < DOF
      ensures DotsWith(u, e, DOF)[i] == Comb(1.0, DotsWith(u, z, DOF), damping, d)[i]
    {
      NormalRow(u, damping, e, d, i);
      LinOne(Dot(u[i], z), damping, d[i]);
    }
    assert DotsWith(u, e, DOF) == Comb(1.0, DotsWith(u, z, DOF), damping, d);
    DotComb(1.0, DotsWith(u, z, DOF), damping, d, w);
    LinOne(Dot(w, DotsWith(u, z, DOF)), damping, Dot(w, d));
  }

  /** Squared error that remains after a step, were the arm linear. */
  function Remaining(e: seq<real>, z: seq<real>, step: real): real
    requires |e| == |z|
  {
    Dot(Comb(1.0, e, -step, z), Comb(1.0, e, -step, z))
  }

  lemma RemainingExpands(e: seq<real>, z: seq<real>, step: real)
    requires |e| == |z|
    ensures Remaining(e, z, step) == Dot(e, e) - 2.0 * Times(step, Dot(z, e)) + Times(step, Times(step, Dot(z, z)))
  {
    hide Dot, Comb;
    var r := Comb(1.0, e, -step, z);
    DotComb(1.0, e, -step, z, r);
    DotComb(1.0, e, -step, z, e);
    DotComb(1.0, e, -step, z, z);
    DotSymmetric(e, z);
  }

  /**
   * The half step lowers the linearised squared pose error by exactly three quarters of the
   * squared motion plus the damped squared update.
   */
  lemma HalfStepDescends(j: Matrix, lambda: real, e: seq<real>, dq: seq<real>)
    requires IsMatrix(j, DOF) && |e| == DOF && IsUpdate(j, lambda, e, dq)
    ensures Dot(e, e) - Remaining(e, Apply(j, dq), STEP)
         == 0.75 * Stretch(j, dq) + Times(Times(lambda, lambda), Dot(dq, dq))
  {
    hide Dot, Image, Solves, NormalSystem, Columns, Apply, Remaining;
    ImageIsApply(j, dq, DOF);
    NormalTest(Columns(j, DOF), Times(lambda, lambda), e, dq, dq);
    RemainingExpands(e, Apply(j, dq), STEP);
  }

  /** What damped least squares minimises. */
  function Cost(j: Matrix, lambda: real, e: seq<real>, y: seq<real>): real
    requires IsMatrix(j, DOF) && |e| == DOF && |y| == DOF
  {
    Remaining(e, Apply(j, y), 1.0) + Times(Times(lambda, lambda), Dot(y, y))
  }

  lemma ApplyComb(j: Matrix, a: real, x: seq<real>, b: real, y: seq<real>)
    requires IsMatrix(j, DOF) && |x| == DOF && |y| == DOF
    ensures Apply(j, Comb(a, x, b, y)) == Comb(a, Apply(j, x), b, Apply(j, y))
  {
    hide Dot, Lin;
    forall k | 0 <= k < DOF
      ensures Apply(j, Comb(a, x, b, y))[k] == Comb(a, Apply(j, x), b, Apply(j, y))[k]
    {
      DotComb(a, x, b, y, j[k]);
    }
  }

  lemma CostArithmetic(ee: real, ye: real, yy: real, de: real, dd: real, yd: real, lyy: real, ldd: real, lyd: real)
    requires dd + ldd == de && yd + lyd == ye
    ensures (ee - 2.0 * ye + yy + lyy) - (ee - 2.0 * de + dd + ldd) == (yy - 2.0 * yd + dd) + (lyy - 2.0 * lyd + ldd)
  {}

  /** The update is the minimiser: any other step costs more by the damped square of the difference. */
  lemma UpdateOptimal(j: Matrix, lambda: real, e: seq<real>, dq: seq<real>, y: seq<real>)
    requires IsMatrix(j, DOF) && |e| == DOF && IsUpdate(j, lambda, e, dq) && |y| == DOF
    ensures var w := Comb(1.0, y, -1.0, dq);
            Cost(j, lambda, e, y) == Cost(j, lambda, e, dq) + Stretch(j, w) + Times(Times(lambda, lambda), Dot(w, w))
  {
    hide Dot, Image, Solves, NormalSystem, Columns, Apply, Remaining, Comb;
    var l := Times(lambda, lambda);
    var w := Comb(1.0, y, -1.0, dq);
    var jy, jd := Apply(j, y), Apply(j, dq);
    ImageIsApply(j, dq, DOF);
    ImageIsApply(j, y, DOF);
    NormalTest(Columns(j, DOF), l, e, dq, dq);
    NormalTest(Columns(j, DOF), l, e, dq, y);
    RemainingExpands(e, jy, 1.0);
    RemainingExpands(e, jd, 1.0);
    ApplyComb(j, 1.0, y, -1.0, dq);
    SquareOfDifference(jy, jd);
    SquareOfDifference(y, dq);
    SpreadTimes(l, Dot(y, y), Dot(y, dq), Dot(dq, dq));
    CostArithmetic(Dot(e, e), Dot(jy, e), Dot(jy, jy), Dot(jd, e), Dot(jd, jd), Dot(jy, jd),
                   Times(l, Dot(y, y)), Times(l, Dot(dq, dq)), Times(l, Dot(y, dq)));
  }

  lemma SpreadTimes(l: real, a: real, b: real, c: real)
    ensures Times(l, a - 2.0 * b + c) == Times(l, a) - 2.0 * Times(l, b) + Times(l, c)
  {}

  lemma SquareOfDifference(x: seq<real>, y: seq<real>)
    requires |x| == |y|
    ensures var w := Comb(1.0, x, -1.0, y); Dot(w, w) == Dot(x, x) - 2.0 * Dot(x, y) + Dot(y, y)
  {
    hide Dot, Comb;
    RemainingExpands(x, y, 1.0);
    DotSymmetric(x, y);
  }

  lemma OptimalIsLeast(j: Matrix, lambda: real, e: seq<real>, dq: seq<real>, y: seq<real>)
    requires IsMatrix(j, DOF) && |e| == DOF && IsUpdate(j, lambda, e, dq) && |y| == DOF
    ensures Cost(j, lambda, e, dq) <= Cost(j, lambda, e, y)
  {
    hide Cost, Dot, Solves, NormalSystem, Apply;
    UpdateOptimal(j, lambda, e, dq, y);
    var w := Comb(1.0, y, -1.0, dq);
    DotNonNegative(w);
    DotNonNegative(Apply(j, w));
    TimesSquare(lambda);
    NonNegativeProduct(Times(lambda, lambda), Dot(w, w));
  }

  lemma DotNonNegative(x: seq<real>)
    ensures Dot(x, x) >= 0.0
  {
    SumSquares(x, |x|);
  }

  lemma NonNegativeProduct(a: real, b: real)
    requires a >= 0.0 && b >= 0.0
    ensures Times(a, b) >= 0.0
  {}

  // ---- the iteration ----

  datatype Reading<T> = Undefined | Reading(value: T)

  /** One recorded update: what led from `q` to `next`. */
  ghost predicate IsStep(m: MathLib, arm: Arm, p: Parameters, q: seq<real>, sigma: real, lambda: real, rms: real,
      next: seq<real>)
    requires arm.Valid() && p.sigmaThreshold > 0.0
  {
    && |q| == DOF && !WithinTolerance(m, arm.error(q))
    && IsSigmaMin(arm.jacobian(q), sigma)
    && lambda == Damping(m, p, sigma)
    && exists dq :: IsUpdate(arm.jacobian(q), lambda, arm.error(q), dq) && Applied(m, arm, q, dq, rms, next)
  }

  /** Half of the update, then the joint limits. */
  ghost predicate Applied(m: MathLib, arm: Arm, q: seq<real>, dq: seq<real>, rms: real, next: seq<real>)
    requires |arm.qMin| == DOF && |arm.qMax| == DOF && |q| == DOF
  {
    |dq| == DOF && next == arm.Clamped(Comb(1.0, q, STEP, dq)) && rms == Rms(m, Comb(STEP, dq, 0.0, dq))
  }

  function Rms(m: MathLib, x: seq<real>): real {
    m.sqrt(Sum(x, x, 0, |x|) / 6.0)
  }

  /** The damped system at `q` that the solver refuses. */
  ghost predicate Refused(arm: Arm, q: seq<real>, lambda: real)
    requires arm.Valid()
  {
    Reduce(NormalSystem(Columns(arm.jacobian(q), DOF), Times(lambda, lambda), arm.error(q)), DOF, 0, MATRIX6).None?
  }

  /** The four recorded histories as values. */
  datatype History = Histories(q: seq<Reading<seq<real>>>, sigma: seq<Reading<real>>, lambda: seq<Reading<real>>,
      rms: seq<Reading<real>>)
  {
    ghost predicate Shape() {
      |q| == ITERATIONS + 1 && |sigma| == ITERATIONS && |lambda| == ITERATIONS && |rms| == ITERATIONS
    }

    /** Exactly the first `n` updates are recorded. */
    ghost predicate Holds(n: nat)
      requires Shape() && n <= ITERATIONS
    {
      && (forall k :: 0 <= k <= ITERATIONS ==> (q[k].Reading? <==> k <= n))
      && (forall k :: 0 <= k < ITERATIONS ==> (sigma[k].Reading? <==> k < n))
      && (forall k :: 0 <= k < ITERATIONS ==> (lambda[k].Reading? <==> k < n))
      && (forall k :: 0 <= k < ITERATIONS ==> (rms[k].Reading? <==> k < n))
    }

    function Empty(start: seq<real>): History {
      Histories(seq(ITERATIONS + 1, k => if k == 0 then Reading(start) else Undefined),
              seq(ITERATIONS, _ => Undefined), seq(ITERATIONS, _ => Undefined), seq(ITERATIONS, _ => Undefined))
    }

    function Append(n: nat, s: real, l: real, r: real, next: seq<real>): History
      requires n < |sigma| && n < |lambda| && n < |rms| && n + 1 < |q|
    {
      Histories(q[n + 1 := Reading(next)], sigma[n := Reading(s)], lambda[n := Reading(l)], rms[n := Reading(r)])
    }
  }

  /** The histories hold exactly `n` updates from `start`, each within the joint limits. */
  ghost predicate Recorded(m: MathLib, arm: Arm, p: Parameters, start: seq<real>, h: History, n: nat)
    requires arm.Valid() && p.sigmaThreshold > 0.0 && n <= ITERATIONS
  {
    && h.Shape() && h.Holds(n) && h.q[0] == Reading(start)
    && (forall k :: 0 <= k <= n ==> arm.InLimits(h.q[k].value))
    && (forall k :: 0 <= k < n ==>
          IsStep(m, arm, p, h.q[k].value, h.sigma[k].value, h.lambda[k].value, h.rms[k].value, h.q[k + 1].value))
  }

  lemma RecordedStart(m: MathLib, arm: Arm, p: Parameters, start: seq<real>, h: History)
    requires arm.Valid() && p.sigmaThreshold > 0.0 && arm.InLimits(start)
    ensures Recorded(m, arm, p, start, h.Empty(start), 0)
  {}

  lemma RecordedNext(m: MathLib, arm: Arm, p: Parameters, start: seq<real>, h: History, n: nat,
                     s: real, l: real, r: real, next: seq<real>)
    requires arm.Valid() && p.sigmaThreshold > 0.0 && n < ITERATIONS && arm.InLimits(next)
    requires Recorded(m, arm, p, start, h, n) && IsStep(m, arm, p, h.q[n].value, s, l, r, next)
    ensures Recorded(m, arm, p, start, h.Append(n, s, l, r, next), n + 1)
  {
    hide IsStep, Arm.InLimits;
  }

  /**
   * Every recorded update applies half of the one step that is best for its damped cost, and lowers
   * the linearised squared pose error by exactly three quarters of the squared motion plus the
   * damped squared step.
   */
  lemma RecordedDescends(m: MathLib, arm: Arm, p: Parameters, start: seq<real>, h: History, n: nat, k: nat)
      returns (dq: seq<real>)
    requires arm.Valid() && p.sigmaThreshold > 0.0 && n <= ITERATIONS && Recorded(m, arm, p, start, h, n) && k < n
    ensures var q, lambda := h.q[k].value, h.lambda[k].value; var e, j := arm.error(q), arm.jacobian(q);
            && |dq| == DOF && |q| == DOF && h.q[k + 1].value == arm.Clamped(Comb(1.0, q, STEP, dq))
            && (forall y: seq<real> :: |y| == DOF ==> Cost(j, lambda, e, dq) <= Cost(j, lambda, e, y))
            && Dot(e, e) - Remaining(e, Apply(j, dq), STEP)
               == 0.75 * Stretch(j, dq) + Times(Times(lambda, lambda), Dot(dq, dq))
  {
    hide Cost, Remaining, Stretch, IsUpdate, Dot, Times, IsSigmaMin, Damping;
    var q, lambda := h.q[k].value, h.lambda[k].value;
    var e, j := arm.error(q), arm.jacobian(q);
    dq :| IsUpdate(j, lambda, e, dq) && Applied(m, arm, q, dq, h.rms[k].value, h.q[k + 1].value);
    HalfStepDescends(j, lambda, e, dq);
    forall y: seq<real> | |y| == DOF
      ensures Cost(j, lambda, e, dq) <= Cost(j, lambda, e, y)
    {
      OptimalIsLeast(j, lambda, e, dq, y);
    }
  }

  // ---- the damping ----

  /** A quarter of an ellipse over the distance from the singularity, and nothing beyond the threshold. */
  ghost predicate OnEllipse(p: Parameters, sigma: real, lambda: real) {
    if sigma > p.sigmaThreshold then lambda == 0.0
    else lambda >= 0.0 && Square(lambda) * Square(p.sigmaThreshold) + Square(p.lambdaMax) * Square(sigma)
                          == Square(p.lambdaMax) * Square(p.sigmaThreshold)
  }

  function Square(x: real): real { x * x }

  lemma RatioWithin(sigma: real, t: real)
    requires 0.0 <= sigma <= t && t > 0.0
    ensures var ratio := sigma / t; t * ratio == sigma && 0.0 <= ratio && ratio * ratio <= 1.0
  {
    var ratio := sigma / t;
    DivideMultiply(sigma, t);
    DivideCompare(sigma, t, 1.0);
    DivideCompare(sigma, t, 0.0);
    SquareMonotone(ratio, 1.0);
  }

  lemma DampingMeans(m: MathLib, p: Parameters, sigma: real)
    requires m.SqrtLaw() && p.sigmaThreshold > 0.0 && p.lambdaMax >= 0.0 && sigma >= 0.0
    ensures OnEllipse(p, sigma, Damping(m, p, sigma))
  {
    var t := p.sigmaThreshold;
    if sigma <= t {
      var ratio := sigma / t;
      RatioWithin(sigma, t);
      var inside := 1.0 - ratio * ratio;
      var root := m.sqrt(inside);
      EllipsePoint(p.lambdaMax, root, t, sigma, ratio);
      ScaleLe(p.lambdaMax, 0.0, root);
    }
  }

  lemma EllipsePoint(a: real, root: real, t: real, sigma: real, ratio: real)
    requires t * ratio == sigma && root * root == 1.0 - ratio * ratio
    ensures Square(a * root) * Square(t) + Square(a) * Square(sigma) == Square(a) * Square(t)
  {
    calc {
      Square(a * root) * Square(t);
      Square(a) * (root * root) * Square(t);
      Square(a) * Square(t) - Square(a) * Square(t * ratio);
    }
  }

  /** On the ellipse a larger distance from the singularity never has more damping. */
  lemma EllipseFalls(p: Parameters, s1: real, l1: real, s2: real, l2: real)
    requires p.sigmaThreshold > 0.0 && p.lambdaMax >= 0.0 && 0.0 <= s1 <= s2
    requires OnEllipse(p, s1, l1) && OnEllipse(p, s2, l2)
    ensures 0.0 <= l2 <= l1 <= p.lambdaMax && (s1 == 0.0 ==> l1 == p.lambdaMax)
  {
    if s1 <= p.sigmaThreshold {
      EllipseHeight(p, s1, l1);
      if s2 <= p.sigmaThreshold {
        SquareMonotone(s1, s2);
        var a2 := Square(p.lambdaMax);
        var t2 := PositiveProduct(p.sigmaThreshold, p.sigmaThreshold);
        ScaleLe(a2, Square(s1), Square(s2));
        Cancel(t2, Square(l2), Square(l1));
        SquareMonotone(l2, l1);
      }
    }
  }

  lemma EllipseHeight(p: Parameters, sigma: real, lambda: real)
    requires 0.0 <= sigma <= p.sigmaThreshold && 0.0 < p.sigmaThreshold && p.lambdaMax >= 0.0
    requires OnEllipse(p, sigma, lambda)
    ensures 0.0 <= lambda <= p.lambdaMax && (sigma == 0.0 ==> lambda == p.lambdaMax)
  {
    var a2 := Square(p.lambdaMax);
    var t2 := PositiveProduct(p.sigmaThreshold, p.sigmaThreshold);
    ScaleLe(a2, 0.0, Square(sigma));
    Cancel(t2, Square(lambda), a2);
    SquareMonotone(lambda, p.lambdaMax);
    if sigma == 0.0 {
      SquareInjective(lambda, p.lambdaMax);
    }
  }

  lemma SigmaNonNegative(j: Matrix, sigma: real)
    requires IsMatrix(j, DOF) && IsSigmaMin(j, sigma)
    ensures sigma >= 0.0
  {
    hide Residual;
  }

  lemma RecordedOnEllipse(m: MathLib, arm: Arm, p: Parameters, start: seq<real>, h: History, n: nat, k: nat)
    requires m.SqrtLaw() && arm.Valid() && p.sigmaThreshold > 0.0 && p.lambdaMax >= 0.0 && n <= ITERATIONS
    requires Recorded(m, arm, p, start, h, n) && k < n
    ensures h.sigma[k].value >= 0.0 && OnEllipse(p, h.sigma[k].value, h.lambda[k].value)
  {
    hide Damping, OnEllipse, WithinTolerance, IsUpdate, Applied, IsSigmaMin;
    assert IsStep(m, arm, p, h.q[k].value, h.sigma[k].value, h.lambda[k].value, h.rms[k].value, h.q[k + 1].value);
    SigmaNonNegative(arm.jacobian(h.q[k].value), h.sigma[k].value);
    DampingMeans(m, p, h.sigma[k].value);
  }

  /**
   * The recorded damping is zero beyond the threshold and on a quarter ellipse below it, so it lies
   * between zero and its maximum, is the maximum at a singularity, and never grows with the distance
   * from one.
   */
  lemma RecordedDamping(m: MathLib, arm: Arm, p: Parameters, start: seq<real>, h: History, n: nat, i: nat, k: nat)
    requires m.SqrtLaw() && arm.Valid() && p.sigmaThreshold > 0.0 && p.lambdaMax >= 0.0 && n <= ITERATIONS
    requires Recorded(m, arm, p, start, h, n) && i < n && k < n
    ensures OnEllipse(p, h.sigma[k].value, h.lambda[k].value) && 0.0 <= h.lambda[k].value <= p.lambdaMax
    ensures h.sigma[k].value == 0.0 ==> h.lambda[k].value == p.lambdaMax
    ensures h.sigma[i].value <= h.sigma[k].value ==> h.lambda[k].value <= h.lambda[i].value
  {
    hide OnEllipse, IsStep, Arm.InLimits;
    RecordedOnEllipse(m, arm, p, start, h, n, i);
    RecordedOnEllipse(m, arm, p, start, h, n, k);
    EllipseFalls(p, h.sigma[k].value, h.lambda[k].value, h.sigma[k].value, h.lambda[k].value);
    if h.sigma[i].value <= h.sigma[k].value {
      EllipseFalls(p, h.sigma[i].value, h.lambda[i].value, h.sigma[k].value, h.lambda[k].value);
    }
  }

  class AdlsInfo {
    var converged: bool
    var iterations: nat
    var positionError: Reading<real>
    var orientationError: Reading<real>
    var sigmaMin: Reading<real>
    var lambda: Reading<real>
    var rmsJointUpdate: Reading<real>
    const sigmaMinHistory: array<Reading<real>>
    const lambdaHistory: array<Reading<real>>
    const rmsJointUpdateHistory: array<Reading<real>>
    var historyLength: nat
    const qHistory: array<Reading<seq<real>>>
    var qHistoryLength: nat

    ghost predicate Shape() {
      && sigmaMinHistory.Length == ITERATIONS && lambdaHistory.Length == ITERATIONS
      && rmsJointUpdateHistory.Length == ITERATIONS
      && qHistory.Length == ITERATIONS + 1
      && sigmaMinHistory != lambdaHistory && sigmaMinHistory != rmsJointUpdateHistory
      && lambdaHistory != rmsJointUpdateHistory
    }

    ghost function Arrays(): set<object> {
      {sigmaMinHistory, lambdaHistory, rmsJointUpdateHistory}
    }

    constructor ()
      ensures Shape()
    {
      converged, iterations, historyLength, qHistoryLength := false, 0, 0, 0;
      positionError, orientationError, sigmaMin, lambda, rmsJointUpdate := Undefined, Undefined, Undefined, Undefined,
          Undefined;
      sigmaMinHistory := new Reading<real>[ITERATIONS](_ => Undefined);
      lambdaHistory := new Reading<real>[ITERATIONS](_ => Undefined);
      rmsJointUpdateHistory := new Reading<real>[ITERATIONS](_ => Undefined);
      qHistory := new Reading<seq<real>>[ITERATIONS + 1](_ => Undefined);
    }

    ghost function History(): History
      reads this, qHistory, Arrays()
    {
      Histories(qHistory[..], sigmaMinHistory[..], lambdaHistory[..], rmsJointUpdateHistory[..])
    }

    method Reset(start: seq<real>)
      requires Shape()
      modifies this, qHistory, Arrays()
      ensures !converged && historyLength == 0 && qHistoryLength == 1
      ensures History() == old(History()).Empty(start)
    {
      converged, iterations := false, 0;
      positionError, orientationError, sigmaMin, lambda, rmsJointUpdate := Undefined, Undefined, Undefined, Undefined,
          Undefined;
      historyLength, qHistoryLength := 0, 1;
      for i := 0 to ITERATIONS
        modifies Arrays()
        invariant forall k :: 0 <= k < i ==>
                    sigmaMinHistory[k] == Undefined && lambdaHistory[k] == Undefined
                        && rmsJointUpdateHistory[k] == Undefined
      {
        sigmaMinHistory[i] := Undefined;
        lambdaHistory[i] := Undefined;
        rmsJointUpdateHistory[i] := Undefined;
      }
      for i := 0 to ITERATIONS + 1
        modifies qHistory
        invariant forall k :: 0 <= k < i ==> qHistory[k] == Undefined
      {
        qHistory[i] := Undefined;
      }
      qHistory[0] := Reading(start);
    }

    /** Appends update number `k`. */
    method Record(k: nat, sigma: real, lam: real, rms: real, next: seq<real>)
      requires Shape() && k < ITERATIONS
      modifies this, qHistory, Arrays()
      ensures converged == old(converged) && historyLength == k + 1 && qHistoryLength == k + 2
      ensures History() == old(History()).Append(k, sigma, lam, rms, next)
    {
      qHistory[k + 1] := Reading(next);
      qHistoryLength := k + 2;
      sigmaMinHistory[k] := Reading(sigma);
      lambdaHistory[k] := Reading(lam);
      rmsJointUpdateHistory[k] := Reading(rms);
      historyLength := k + 1;
      sigmaMin, lambda, rmsJointUpdate := Reading(sigma), Reading(lam), Reading(rms);
    }
  }

  lemma ClampedInLimits(arm: Arm, q: seq<real>)
    requires arm.Valid() && |q| == DOF
    ensures arm.InLimits(arm.Clamped(q))
  {}

  method ClampInPlace(arm: Arm, q: array<real>)
    requires arm.Valid() && q.Length == DOF
    modifies q
    ensures q[..] == arm.Clamped(old(q[..])) && arm.InLimits(q[..])
  {
    for i := 0 to DOF
      invariant forall k :: 0 <= k < i ==> q[k] == arm.Clamped(old(q[..]))[k]
      invariant forall k :: i <= k < DOF ==> q[k] == old(q[k])
    {
      q[i] := ClampValue(q[i], arm.qMin[i], arm.qMax[i]);
    }
    assert q[..] == arm.Clamped(old(q[..]));
    ClampedInLimits(arm, old(q[..]));
  }

  method LoadJacobian(v: Matrix) returns (j: array2<real>)
    requires IsMatrix(v, DOF)
    ensures fresh(j) && j.Length0 == DOF && j.Length1 == DOF && View(j) == v
  {
    j := new real[DOF, DOF]((r, c) requires 0 <= r < DOF && 0 <= c < DOF => v[r][c]);
    assert forall i :: 0 <= i < DOF ==> Row(j, i) == v[i];
  }

  method BuildRightHandSide(j: array2<real>, e: seq<real>, b: array<real>)
    requires j.Length0 == DOF && j.Length1 == DOF && |e| == DOF && b.Length == DOF
    modifies b
    ensures forall i :: 0 <= i < DOF ==> b[i] == Dot(Columns(View(j), DOF)[i], e)
  {
    hide Times, Sum;
    ghost var u := Columns(View(j), DOF);
    for row := 0 to DOF
      invariant forall i :: 0 <= i < row ==> b[i] == Dot(u[i], e)
    {
      b[row] := 0.0;
      NoTerms(u[row], e, 0);
      for k := 0 to DOF
        invariant forall i :: 0 <= i < row ==> b[i] == Dot(u[i], e)
        invariant b[row] == Sum(u[row], e, 0, k)
      {
        NextTerm(u[row], e, 0, k);
        b[row] := b[row] + Times(j[k, row], e[k]);
      }
    }
  }

  method AddDamping(a: array2<real>, damping: real, ghost u: Matrix)
    requires a.Length0 == DOF && a.Length1 == DOF && IsMatrix(u, DOF) && Gram(View(a), u, DOF)
    modifies a
    ensures forall i, k :: 0 <= i < DOF && 0 <= k < DOF ==> a[i, k] == SystemEntry(u, damping, i, k)
  {
    hide Dot;
    assert forall i, k :: 0 <= i < DOF && 0 <= k < DOF ==> View(a)[i][k] == a[i, k];
    for joint := 0 to DOF
      invariant forall i, k :: 0 <= i < DOF && 0 <= k < DOF ==>
                  a[i, k] == if i < joint then SystemEntry(u, damping, i, k) else Dot(u[i], u[k])
    {
      a[joint, joint] := a[joint, joint] + damping;
    }
  }

  /** Sets up and solves the damped normal equations. */
  method SolveUpdate(j: array2<real>, lambda: real, e: seq<real>, dq: array<real>) returns (ok: bool)
    requires j.Length0 == DOF && j.Length1 == DOF && |e| == DOF && dq.Length == DOF
    modifies dq
    ensures ok ==> IsUpdate(View(j), lambda, e, dq[..])
    ensures !ok ==> Reduce(NormalSystem(Columns(View(j), DOF), Times(lambda, lambda), e), DOF, 0, MATRIX6).None?
  {
    hide Dot, Gram, Columns, Solves, Reduce, Times;
    ghost var u := Columns(View(j), DOF);
    var a := new real[DOF, DOF];
    var b := new real[DOF];
    FormNormal(j, a);
    AddDamping(a, Times(lambda, lambda), u);
    BuildRightHandSide(j, e, b);
    ghost var v := NormalSystem(u, Times(lambda, lambda), e);
    forall i | 0 <= i < DOF
      ensures Augmented(a, b, DOF)[i] == v[i]
    {}
    assert Augmented(a, b, DOF) == v;
    ok := Solve(a, b, DOF, MATRIX6, dq);
  }

  method JointRms(m: MathLib, x: array<real>) returns (rms: real)
    requires x.Length == DOF
    ensures rms == Rms(m, x[..])
  {
    hide Times;
    var sumSquares := 0.0;
    for i := 0 to DOF
      invariant sumSquares == Sum(x[..], x[..], 0, i)
    {
      sumSquares := sumSquares + Times(x[i], x[i]);
    }
    rms := m.sqrt(sumSquares / 6.0);
  }

  lemma LinUnitStep(x: real, y: real)
    ensures Lin(1.0, x, STEP, y) == x + STEP * y && Lin(STEP, x, 0.0, y) == STEP * x
  {}

  method ScaleUpdate(dq: array<real>) returns (applied: array<real>)
    requires dq.Length == DOF
    ensures fresh(applied) && applied.Length == DOF && applied[..] == Comb(STEP, dq[..], 0.0, dq[..])
  {
    hide Lin;
    applied := new real[DOF];
    for i := 0 to DOF
      modifies applied
      invariant forall k :: 0 <= k < i ==> applied[k] == Lin(STEP, dq[k], 0.0, dq[k])
    {
      LinUnitStep(dq[i], dq[i]);
      applied[i] := STEP * dq[i];
    }
  }

  method AddUpdate(q: array<real>, ghost dq: seq<real>, applied: array<real>)
    requires q.Length == DOF && |dq| == DOF && applied.Length == DOF && applied != q
             && applied[..] == Comb(STEP, dq, 0.0, dq)
    modifies q
    ensures q[..] == Comb(1.0, old(q[..]), STEP, dq)
  {
    hide Lin;
    for i := 0 to DOF
      invariant forall k :: 0 <= k < i ==> q[k] == Lin(1.0, old(q[k]), STEP, dq[k])
      invariant forall k :: i <= k < DOF ==> q[k] == old(q[k])
    {
      assert applied[i] == applied[..][i] == Lin(STEP, dq[i], 0.0, dq[i]);
      LinUnitStep(dq[i], dq[i]);
      LinUnitStep(q[i], dq[i]);
      q[i] := q[i] + applied[i];
    }
  }

  method ApplyUpdate(m: MathLib, arm: Arm, q: array<real>, dq: array<real>) returns (rms: real)
    requires arm.Valid() && q.Length == DOF && dq.Length == DOF && q != dq
    modifies q
    ensures Applied(m, arm, old(q[..]), dq[..], rms, q[..]) && arm.InLimits(q[..])
  {
    hide Rms, Comb, Arm.InLimits, Arm.Clamped;
    var applied := ScaleUpdate(dq);
    rms := JointRms(m, applied);
    AddUpdate(q, dq[..], applied);
    ClampInPlace(arm, q);
  }

  /** Damping and update at one configuration. */
  method ComputeUpdate(m: MathLib, arm: Arm, p: Parameters, q: seq<real>)
      returns (solved: bool, sigma: real, lam: real, dq: array<real>)
    requires m.SqrtLaw() && m.CircleLaw() && m.DoubleAngleLaw() && m.Atan2Law()
    requires arm.Valid() && p.sigmaThreshold > 0.0
    ensures fresh(dq) && dq.Length == DOF
    ensures IsSigmaMin(arm.jacobian(q), sigma) && lam == Damping(m, p, sigma)
    ensures if solved then IsUpdate(arm.jacobian(q), lam, arm.error(q), dq[..]) else Refused(arm, q, lam)
  {
    hide IsSigmaMin, IsUpdate, Reduce, NormalSystem, Damping;
    var j := LoadJacobian(arm.jacobian(q));
    sigma := SigmaMin(m, j);
    lam := Damping(m, p, sigma);
    dq := new real[DOF];
    solved := SolveUpdate(j, lam, arm.error(q), dq);
  }

  /** One update after the convergence check; nothing but diagnostics changes when the solver refuses. */
  method Iterate(m: MathLib, arm: Arm, p: Parameters, ghost start: seq<real>, q: array<real>, info: AdlsInfo,
      index: nat) returns (solved: bool)
    requires m.SqrtLaw() && m.CircleLaw() && m.DoubleAngleLaw() && m.Atan2Law()
    requires arm.Valid() && p.sigmaThreshold > 0.0 && info.Shape() && index < ITERATIONS
    requires q.Length == DOF && q !in info.Arrays() && !WithinTolerance(m, arm.error(q[..]))
    requires Recorded(m, arm, p, start, info.History(), index) && info.qHistory[index] == Reading(q[..])
    modifies q, info, info.qHistory, info.Arrays()
    ensures info.converged == old(info.converged)
    ensures !solved ==> q[..] == old(q[..]) && info.historyLength == index && info.qHistoryLength == index + 1
                        && Recorded(m, arm, p, start, info.History(), index) && info.qHistory[index] == Reading(q[..])
                        && info.lambda.Reading? && Refused(arm, q[..], info.lambda.value)
    ensures solved ==> arm.InLimits(q[..]) && info.historyLength == index + 1 && info.qHistoryLength == index + 2
                       && Recorded(m, arm, p, start, info.History(), index + 1)
                       && info.qHistory[index + 1] == Reading(q[..])
  {
    hide WithinTolerance, IsStep, IsSigmaMin, IsUpdate, Refused, Applied, Damping, Arm.InLimits, Recorded;
    ghost var before := q[..];
    var sigma, lam, dq;
    solved, sigma, lam, dq := ComputeUpdate(m, arm, p, q[..]);
    if !solved {
      info.sigmaMin, info.lambda := Reading(sigma), Reading(lam);
      info.historyLength, info.qHistoryLength := index, index + 1;
      return;
    }
    var rms := ApplyUpdate(m, arm, q, dq);
    MakeStep(m, arm, p, before, sigma, lam, rms, q[..], dq[..]);
    RecordedNext(m, arm, p, start, info.History(), index, sigma, lam, rms, q[..]);
    info.Record(index, sigma, lam, rms, q[..]);
    assert info.qHistory[index + 1] == info.History().q[index + 1];
  }

  /**
   * Iterates from the clamped seed.  Success means both tolerances at the returned
   * configuration; every configuration on the way is recorded and within the limits.
   */
  method Ik(m: MathLib, arm: Arm, p: Parameters, qSeed: seq<real>, info: AdlsInfo)
      returns (ok: bool, qSolution: seq<real>)
    requires m.SqrtLaw() && m.CircleLaw() && m.DoubleAngleLaw() && m.Atan2Law()
    requires arm.Valid() && |qSeed| == DOF && info.Shape()
    modifies info, info.qHistory, info.Arrays()
    ensures p.lambdaMax < 0.0 || p.sigmaThreshold <= 0.0 ==> !ok && unchanged(info) && unchanged(info.qHistory)
    ensures p.lambdaMax >= 0.0 && p.sigmaThreshold > 0.0 ==>
              && info.historyLength <= ITERATIONS && info.qHistoryLength == info.historyLength + 1
              && Recorded(m, arm, p, arm.Clamped(qSeed), info.History(), info.historyLength)
              && qSolution == info.qHistory[info.historyLength].value
              && ok == info.converged
    ensures ok ==> WithinTolerance(m, arm.error(qSolution))
    ensures p.lambdaMax >= 0.0 && p.sigmaThreshold > 0.0 && !ok && info.historyLength < ITERATIONS ==>
              info.lambda.Reading? && Refused(arm, qSolution, info.lambda.value)
                  && !WithinTolerance(m, arm.error(qSolution))
  {
    hide WithinTolerance, IsStep, Refused;
    qSolution := qSeed;
    if p.lambdaMax < 0.0 || p.sigmaThreshold <= 0.0 {
      return false, qSolution;
    }
    var q := new real[DOF](i requires 0 <= i < DOF => qSeed[i]);
    assert q[..] == qSeed;
    ClampInPlace(arm, q);
    ghost var start := q[..];
    RecordedStart(m, arm, p, start, info.History());
    info.Reset(q[..]);
    assert info.qHistory[0] == info.History().q[0];
    for index := 0 to ITERATIONS
      invariant fresh(q) && q.Length == DOF && arm.InLimits(q[..])
      invariant info.historyLength == index && info.qHistoryLength == index + 1 && !info.converged
      invariant Recorded(m, arm, p, start, info.History(), index) && info.qHistory[index] == Reading(q[..])
    {
      var e := arm.error(q[..]);
      info.iterations := index + 1;
      info.positionError := Reading(PositionError(m, e));
      info.orientationError := Reading(OrientationError(m, e));
      if WithinTolerance(m, e) {
        info.converged, info.historyLength, info.qHistoryLength := true, index, index + 1;
        return true, q[..];
      }
      var solved := Iterate(m, arm, p, start, q, info, index);
      if !solved {
        return false, q[..];
      }
    }
    info.converged, info.historyLength, info.qHistoryLength := false, ITERATIONS, ITERATIONS + 1;
    return false, q[..];
  }

  lemma MakeStep(m: MathLib, arm: Arm, p: Parameters, q: seq<real>, sigma: real, lam: real, rms: real,
      next: seq<real>, dq: seq<real>)
    requires arm.Valid() && p.sigmaThreshold > 0.0 && |q| == DOF && !WithinTolerance(m, arm.error(q))
    requires IsSigmaMin(arm.jacobian(q), sigma) && lam == Damping(m, p, sigma)
    requires IsUpdate(arm.jacobian(q), lam, arm.error(q), dq) && Applied(m, arm, q, dq, rms, next)
    ensures IsStep(m, arm, p, q, sigma, lam, rms, next)
  {
    hide IsSigmaMin, Damping, IsUpdate, Applied, WithinTolerance;
  }
}
