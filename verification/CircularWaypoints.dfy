/** Waypoints along an arc through three points, and around a full circle. */
module CircularWaypoints {
  import opened RealMath
  import opened Vectors
  import opened CircularPath

  // ---- angles modulo a full turn ----

  function Truncated(x: real): int { if x >= 0.0 then x.Floor else -((-x).Floor) }

  /** The C remainder, with the sign of the dividend. */
  function Fmod(a: real, period: real): real
    requires period > 0.0
  {
    a - period * Truncated(a / period) as real
  }

  function ModTwoPi(m: MathLib, a: real): real
    requires m.pi > 0.0
  {
    var r := Fmod(a, 2.0 * m.pi);
    if r < 0.0 then r + 2.0 * m.pi else r
  }

  lemma FmodRange(a: real, period: real)
    requires period > 0.0
    ensures -period < Fmod(a, period) < period
  {
    var x, t := a / period, Truncated(a / period) as real;
    DivideMultiply(a, period);
    assert -1.0 < x - t < 1.0;
    ScaledRange(period, x, t, a);
  }

  lemma ScaledRange(period: real, x: real, t: real, a: real)
    requires period > 0.0 && -1.0 < x - t < 1.0 && period * x == a
    ensures -period < a - period * t < period
  {
    var lo := PositiveProduct(period, x - t + 1.0);
    var hi := PositiveProduct(period, 1.0 - (x - t));
    assert lo == a - period * t + period;
    assert hi == period - (a - period * t);
  }

  /** The result is the same angle, a whole number of turns away, in `[0, 2 pi)`. */
  lemma ModFacts(m: MathLib, a: real) returns (k: int)
    requires m.pi > 0.0
    ensures 0.0 <= ModTwoPi(m, a) < 2.0 * m.pi && ModTwoPi(m, a) == m.Turned(a, k)
  {
    var period := 2.0 * m.pi;
    FmodRange(a, period);
    var t := Truncated(a / period);
    k := if Fmod(a, period) < 0.0 then 1 - t else -t;
    TurnArithmetic(period, t);
  }

  lemma TurnArithmetic(period: real, t: int)
    ensures period * (-t) as real == -(period * t as real)
    ensures period * (1 - t) as real == period - period * t as real
  {}

  lemma ModSame(m: MathLib, a: real)
    requires m.PeriodLaw()
    ensures m.sin(ModTwoPi(m, a)) == m.sin(a) && m.cos(ModTwoPi(m, a)) == m.cos(a)
  {
    var k := ModFacts(m, a);
  }

  /** The same angle measured clockwise: the counter-clockwise angle minus a turn, or zero. */
  lemma ModClockwise(m: MathLib, a: real)
    requires m.PeriodLaw()
    ensures -ModTwoPi(m, -a) == if ModTwoPi(m, a) == 0.0 then 0.0 else ModTwoPi(m, a) - 2.0 * m.pi
    ensures m.sin(-ModTwoPi(m, -a)) == m.sin(a) && m.cos(-ModTwoPi(m, -a)) == m.cos(a)
  {
    hide ModTwoPi;
    var j := ModFacts(m, a);
    var k := ModFacts(m, -a);
    var period := 2.0 * m.pi;
    WholeTurns(period, ModTwoPi(m, a), ModTwoPi(m, -a), a, j, k);
    TurnArithmetic(period, k);
    assert m.Turned(a, -k) == -ModTwoPi(m, -a);
  }

  lemma WholeTurns(period: real, x: real, y: real, a: real, j: int, k: int)
    requires period > 0.0 && 0.0 <= x < period && 0.0 <= y < period
    requires x == a + period * j as real && y == -a + period * k as real
    ensures y == if x == 0.0 then 0.0 else period - x
  {
    var n := j + k;
    assert x + y == period * n as real by {
      assert period * j as real + period * k as real == period * (j + k) as real;
    }
    TurnCount(period, x + y, n);
  }

  lemma TurnCount(period: real, sum: real, n: int)
    requires period > 0.0 && 0.0 <= sum < 2.0 * period && sum == period * n as real
    ensures sum == 0.0 || sum == period
  {
    var r := n as real;
    if n <= -1 {
      ScaleLe(period, r, -1.0);
    } else if n >= 2 {
      ScaleLe(period, 2.0, r);
    } else {
      assert r == 0.0 || r == 1.0;
    }
  }

  // ---- choosing the sweep ----

  function SweepCcw(m: MathLib, thetaEnd: real): real
    requires m.pi > 0.0
  {
    if ModTwoPi(m, thetaEnd) < ANGLE_EPS then 2.0 * m.pi else ModTwoPi(m, thetaEnd)
  }

  function SweepCw(m: MathLib, thetaEnd: real): real
    requires m.pi > 0.0
  {
    if -ModTwoPi(m, -thetaEnd) > -ANGLE_EPS then -2.0 * m.pi else -ModTwoPi(m, -thetaEnd)
  }

  predicate CcwWorks(m: MathLib, thetaMid: real, thetaEnd: real)
    requires m.pi > 0.0
  {
    ANGLE_EPS < ModTwoPi(m, thetaMid) <= SweepCcw(m, thetaEnd) + ANGLE_EPS
  }

  predicate CwWorks(m: MathLib, thetaMid: real, thetaEnd: real)
    requires m.pi > 0.0
  {
    SweepCw(m, thetaEnd) - ANGLE_EPS <= -ModTwoPi(m, -thetaMid) < -ANGLE_EPS
  }

  /** The signed total angle, when exactly one direction passes the middle point. */
  function ArcSweep(m: MathLib, thetaMid: real, thetaEnd: real): Option<real>
    requires m.pi > 0.0
  {
    var ccw, cw := CcwWorks(m, thetaMid, thetaEnd), CwWorks(m, thetaMid, thetaEnd);
    if ccw && !cw then Some(SweepCcw(m, thetaEnd))
    else if cw && !ccw then Some(SweepCw(m, thetaEnd))
    else None
  }

  /** `angle` lies between zero and `total`, or at most the tolerance beyond `total`. */
  predicate Swept(angle: real, total: real) {
    if total > 0.0 then 0.0 < angle <= total + ANGLE_EPS else total - ANGLE_EPS <= angle < 0.0
  }

  /** An accepted sweep is at most one turn and passes through the angle of the middle point. */
  lemma SweepContainsMid(m: MathLib, thetaMid: real, thetaEnd: real, total: real) returns (angle: real)
    requires m.PeriodLaw() && ArcSweep(m, thetaMid, thetaEnd) == Some(total)
    ensures 0.0 < Abs(total) <= 2.0 * m.pi && Swept(angle, total)
    ensures m.sin(angle) == m.sin(thetaMid) && m.cos(angle) == m.cos(thetaMid)
  {
    hide ModTwoPi;
    var j := ModFacts(m, thetaEnd);
    var k := ModFacts(m, -thetaEnd);
    if CcwWorks(m, thetaMid, thetaEnd) {
      angle := ModTwoPi(m, thetaMid);
      ModSame(m, thetaMid);
    } else {
      angle := -ModTwoPi(m, -thetaMid);
      ModClockwise(m, thetaMid);
    }
  }

  /** The end angle is within the tolerance of the start, so the sweep was replaced by a full turn. */
  predicate Snapped(m: MathLib, thetaEnd: real, total: real)
    requires m.pi > 0.0
  {
    if total > 0.0 then ModTwoPi(m, thetaEnd) < ANGLE_EPS else -ModTwoPi(m, -thetaEnd) > -ANGLE_EPS
  }

  lemma SweepEnds(m: MathLib, thetaMid: real, thetaEnd: real, total: real)
    requires m.PeriodLaw() && ArcSweep(m, thetaMid, thetaEnd) == Some(total)
    ensures !Snapped(m, thetaEnd, total) ==> m.sin(total) == m.sin(thetaEnd) && m.cos(total) == m.cos(thetaEnd)
    ensures Snapped(m, thetaEnd, total) ==> m.sin(total) == m.sin(0.0) && m.cos(total) == m.cos(0.0)
  {
    hide ModTwoPi;
    var j := ModFacts(m, thetaEnd);
    var k := ModFacts(m, -thetaEnd);
    ModSame(m, thetaEnd);
    ModClockwise(m, thetaEnd);
    FullTurn(m);
  }

  lemma FullTurn(m: MathLib)
    requires m.PeriodLaw()
    ensures m.sin(2.0 * m.pi) == m.sin(0.0) && m.cos(2.0 * m.pi) == m.cos(0.0)
    ensures m.sin(-2.0 * m.pi) == m.sin(0.0) && m.cos(-2.0 * m.pi) == m.cos(0.0)
  {
    assert m.Turned(0.0, 1) == 2.0 * m.pi;
    assert m.Turned(0.0, -1) == -2.0 * m.pi;
  }

  /** The end point is within the tolerance of the start, on either side of it. */
  predicate EndAtStart(end: real, turn: real) { end < ANGLE_EPS || end > turn - ANGLE_EPS }

  /**
   * The middle angle does not single out one direction.  With the end at the start that is any
   * middle clear of the start; otherwise the middle is at the start or at the end itself.
   */
  predicate Undecided(mid: real, end: real, turn: real) {
    if EndAtStart(end, turn) then mid == 0.0 || ANGLE_EPS < mid < turn - ANGLE_EPS
    else if mid <= ANGLE_EPS then mid == 0.0 || mid < end - ANGLE_EPS
    else if mid >= turn - ANGLE_EPS then mid > end + ANGLE_EPS
    else Abs(mid - end) <= ANGLE_EPS
  }

  /** An arc is refused exactly when the middle point does not single out one direction, for every end angle. */
  lemma ArcRefusedExactly(m: MathLib, thetaMid: real, thetaEnd: real)
    requires m.PeriodLaw()
    ensures ArcSweep(m, thetaMid, thetaEnd) == None
       <==> Undecided(ModTwoPi(m, thetaMid), ModTwoPi(m, thetaEnd), 2.0 * m.pi)
  {
    hide ModTwoPi;
    var j := ModFacts(m, thetaMid);
    var k := ModFacts(m, thetaEnd);
    ModClockwise(m, thetaMid);
    ModClockwise(m, thetaEnd);
  }

  /**
   * An accepted sweep was replaced by a full turn exactly when both points are at the start, the middle one
   * behind it.
   */
  lemma SnappedExactly(m: MathLib, thetaMid: real, thetaEnd: real, total: real)
    requires m.PeriodLaw() && ArcSweep(m, thetaMid, thetaEnd) == Some(total)
    ensures var mid, end, turn := ModTwoPi(m, thetaMid), ModTwoPi(m, thetaEnd), 2.0 * m.pi;
            && (Snapped(m, thetaEnd, total) && total > 0.0 <==> end < ANGLE_EPS && mid >= turn - ANGLE_EPS)
            && (Snapped(m, thetaEnd, total) && total < 0.0 <==>
                  (end == 0.0 || end > turn - ANGLE_EPS) && 0.0 < mid <= ANGLE_EPS)
            && (Snapped(m, thetaEnd, total) ==> Abs(total) == turn)
  {
    hide ModTwoPi;
    var j := ModFacts(m, thetaMid);
    var k := ModFacts(m, thetaEnd);
    ModClockwise(m, thetaMid);
    ModClockwise(m, thetaEnd);
  }

  lemma ModIdentity(m: MathLib, a: real)
    requires m.pi > 0.0 && 0.0 <= a < 2.0 * m.pi
    ensures ModTwoPi(m, a) == a
  {
    hide ModTwoPi;
    var k := ModFacts(m, a);
    SameTurn(2.0 * m.pi, a, ModTwoPi(m, a), k);
  }

  lemma SameTurn(period: real, x: real, y: real, k: int)
    requires period > 0.0 && 0.0 <= x < period && 0.0 <= y < period && y == x + period * k as real
    ensures x == y
  {
    WholeDifference(period, y - x, k as real);
  }

  lemma WholeDifference(period: real, d: real, r: real)
    requires period > 0.0 && -period < d < period && d == period * r && (r <= -1.0 || r == 0.0 || r >= 1.0)
    ensures d == 0.0
  {
    Cancel(period, r, 1.0);
    Cancel(period, -1.0, r);
  }

  // ---- waypoints ----

  function Fraction(i: nat, n: nat): real
    requires n >= 2
  {
    i as real / (n - 1) as real
  }

  function AngleAt(total: real, i: nat, n: nat): real
    requires n >= 2
  {
    total * Fraction(i, n)
  }

  ghost predicate Sampled(m: MathLib, c: Circle, total: real, n: nat, waypoints: seq<Vec3>)
    requires n >= 2
  {
    |waypoints| == n && forall i :: 0 <= i < n ==> waypoints[i] == Sample(m, c, AngleAt(total, i, n))
  }

  method SampleWaypoints(m: MathLib, c: Circle, total: real, n: nat, waypoints: array<Vec3>)
    requires 2 <= n <= waypoints.Length
    modifies waypoints
    ensures Sampled(m, c, total, n, waypoints[..n])
  {
    hide Sample, AngleAt;
    for i := 0 to n
      invariant forall k :: 0 <= k < i ==> waypoints[k] == Sample(m, c, AngleAt(total, k, n))
    {
      waypoints[i] := Sample(m, c, AngleAt(total, i, n));
    }
  }

  method GenerateArc(m: MathLib, start: Vec3, mid: Vec3, end: Vec3, n: nat, waypoints: array<Vec3>)
    returns (ok: bool, c: Circle, total: real)
    requires m.SqrtLaw() && m.pi > 0.0 && n <= waypoints.Length
    modifies waypoints
    ensures ok ==> n >= 2 && FitAccepts(m, start, mid, end)
                   && Fitted(c, start, mid, end) && c.axis == UnitNormal(m, start, mid, end)
                   && ArcSweep(m, AngleOf(m, c, mid), AngleOf(m, c, end)) == Some(total)
                   && Sampled(m, c, total, n, waypoints[..n])
    ensures !ok ==> n < 2 || !FitAccepts(m, start, mid, end)
                    || (Fitted(c, start, mid, end) && c.axis == UnitNormal(m, start, mid, end)
                        && ArcSweep(m, AngleOf(m, c, mid), AngleOf(m, c, end)) == None)
  {
    hide Fitted, ArcSweep, AngleOf, Sampled, Norm;
    total := 0.0;
    if n < 2 {
      c := Circle(Zero3, Zero3, Zero3, Zero3, 0.0);
      return false, c, total;
    }
    ok, c := FitCircle(m, start, mid, end);
    if !ok {
      return;
    }
    var sweep := ArcSweep(m, AngleOf(m, c, mid), AngleOf(m, c, end));
    if sweep.None? {
      return false, c, total;
    }
    total := sweep.value;
    SampleWaypoints(m, c, total, n, waypoints);
  }

  /** The last point is set to the first one to close the loop. */
  method GenerateFullCircle(m: MathLib, p1: Vec3, p2: Vec3, p3: Vec3, direction: int, n: nat, waypoints: array<Vec3>)
    returns (ok: bool, c: Circle, total: real)
    requires m.SqrtLaw() && m.CircleLaw() && m.PeriodLaw() && n <= waypoints.Length
    modifies waypoints
    ensures ok <==> n >= 3 && (direction == 1 || direction == -1) && FitAccepts(m, p1, p2, p3)
    ensures ok ==> Fitted(c, p1, p2, p3) && c.axis == UnitNormal(m, p1, p2, p3)
                   && total == direction as real * 2.0 * m.pi && Sampled(m, c, total, n, waypoints[..n])
                   && waypoints[0] == waypoints[n - 1] == p1
  {
    hide Fitted, Sample, Norm, AngleAt;
    total := 0.0;
    if n < 3 || (direction != 1 && direction != -1) {
      c := Circle(Zero3, Zero3, Zero3, Zero3, 0.0);
      return false, c, total;
    }
    ok, c := FitCircle(m, p1, p2, p3);
    if !ok {
      return;
    }
    total := direction as real * 2.0 * m.pi;
    SampleWaypoints(m, c, total, n, waypoints);
    ClosedLoop(m, c, p1, p2, p3, direction, n);
    assert waypoints[..n][n - 1] == p1 && waypoints[..n][0] == p1;
    waypoints[n - 1] := p1;
  }

  lemma EndFractions(total: real, n: nat)
    requires n >= 2
    ensures AngleAt(total, 0, n) == 0.0 && AngleAt(total, n - 1, n) == total
  {
    DivideMultiply(1.0, (n - 1) as real);
  }

  /** Without the forced point the loop is closed already. */
  lemma ClosedLoop(m: MathLib, c: Circle, p1: Vec3, p2: Vec3, p3: Vec3, direction: int, n: nat)
    requires m.CircleLaw() && m.PeriodLaw() && Fitted(c, p1, p2, p3) && n >= 2 && (direction == 1 || direction == -1)
    ensures var total := direction as real * 2.0 * m.pi;
            Sample(m, c, AngleAt(total, 0, n)) == p1 && Sample(m, c, AngleAt(total, n - 1, n)) == p1
  {
    hide At, AngleAt, OnCircle, Frame;
    EndFractions(direction as real * 2.0 * m.pi, n);
    FullTurn(m);
  }

  /** Every waypoint is on the fitted circle, and the first one is the start point. */
  lemma WaypointsOnCircle(m: MathLib, c: Circle, p1: Vec3, p2: Vec3, p3: Vec3, total: real, n: nat,
      waypoints: seq<Vec3>)
    requires m.CircleLaw() && Fitted(c, p1, p2, p3) && n >= 2 && Sampled(m, c, total, n, waypoints)
    ensures waypoints[0] == p1 && forall i :: 0 <= i < n ==> OnCircle(c, waypoints[i])
  {
    hide At, AngleAt, OnCircle;
    EndFractions(total, n);
    forall i | 0 <= i < n
      ensures OnCircle(c, waypoints[i])
    {
      SampleOnCircle(m, c, AngleAt(total, i, n));
    }
  }

  lemma StartIsNotEnd(m: MathLib, p1: Vec3, p2: Vec3, p3: Vec3)
    requires m.SqrtLaw() && Norm(m, Normal(p1, p2, p3)) >= COLLINEAR_EPS
    ensures p1 != p3
  {
    if p1 == p3 {
      assert Normal(p1, p2, p3) == Zero3;
      NormSquare(m, Zero3);
    }
  }

  /** The last waypoint is the end point, exactly unless the end was taken for the start. */
  lemma ArcEnd(m: MathLib, c: Circle, start: Vec3, mid: Vec3, end: Vec3, total: real, n: nat, waypoints: seq<Vec3>)
    requires m.SqrtLaw() && m.CircleLaw() && m.PeriodLaw() && m.Atan2Law() && Fitted(c, start, mid, end) && n >= 2
    requires Norm(m, Normal(start, mid, end)) >= COLLINEAR_EPS
    requires ArcSweep(m, AngleOf(m, c, mid), AngleOf(m, c, end)) == Some(total) && Sampled(m, c, total, n, waypoints)
    ensures waypoints[n - 1] == end <==> !Snapped(m, AngleOf(m, c, end), total)
  {
    hide At, AngleAt, OnCircle, Frame, AngleOf, ArcSweep, Snapped, Norm;
    EndFractions(total, n);
    SampleAtAngle(m, c, end);
    SweepEnds(m, AngleOf(m, c, mid), AngleOf(m, c, end), total);
    StartIsNotEnd(m, start, mid, end);
  }

  /** The middle point is itself a sample of the accepted sweep. */
  lemma ArcPassesMiddle(m: MathLib, c: Circle, start: Vec3, mid: Vec3, end: Vec3, total: real)
    requires m.SqrtLaw() && m.PeriodLaw() && m.Atan2Law() && Fitted(c, start, mid, end)
    requires ArcSweep(m, AngleOf(m, c, mid), AngleOf(m, c, end)) == Some(total)
    ensures exists angle :: Swept(angle, total) && Sample(m, c, angle) == mid
  {
    hide At, OnCircle, Frame, AngleOf, ArcSweep, Swept;
    SampleAtAngle(m, c, mid);
    var angle := SweepContainsMid(m, AngleOf(m, c, mid), AngleOf(m, c, end), total);
    assert Sample(m, c, angle) == Sample(m, c, AngleOf(m, c, mid));
  }

  // ---- no arc of ordinary size is snapped ----

  /** A point at angle `a` is no further from the first one than the arc between them. */
  lemma ChordBound(m: MathLib, c: Circle, p: Vec3, a: real)
    requires m.CircleLaw() && m.DoubleAngleLaw() && m.SineBoundLaw() && Frame(c) && p == Sample(m, c, a)
    ensures Dot(Sub(p, At(c, 1.0, 0.0)), Sub(p, At(c, 1.0, 0.0))) <= c.radius * c.radius * (a * a)
  {
    hide Dot, Frame, Sub, At, Cross, MathLib.CircleLaw, MathLib.DoubleAngleLaw, MathLib.SineBoundLaw;
    var co, si := HalfChord(m, a);
    ChordLength(c, co, si);
    RadiusPositive(c);
    var w := Sub(p, At(c, 1.0, 0.0));
    SquareScaled(c.radius, Dot(w, w), 2.0 - 2.0 * co, a * a);
  }

  lemma SquareScaled(r: real, d: real, x: real, y: real)
    requires r > 0.0 && d == r * r * x && x <= y
    ensures d <= r * r * y
  {
    var rr := PositiveProduct(r, r);
    ScaleLe(rr, x, y);
  }

  lemma HalfChord(m: MathLib, a: real) returns (co: real, si: real)
    requires m.CircleLaw() && m.DoubleAngleLaw() && m.SineBoundLaw()
    ensures co == m.cos(a) && si == m.sin(a) && co * co + si * si == 1.0 && 2.0 - 2.0 * co <= a * a
  {
    hide MathLib.CircleLaw, MathLib.DoubleAngleLaw, MathLib.SineBoundLaw;
    var h := 0.5 * a;
    si, co := SineCosine(m, a);
    var s, k := SineCosine(m, h);
    DoubleCosine(m, h, a);
    SineBound(m, h);
    HalfArithmetic(s, k, co, h);
    DoubledSquare(h, a);
  }

  lemma DoubledSquare(h: real, a: real)
    requires a == 2.0 * h
    ensures 4.0 * (h * h) == a * a
  {}

  lemma DoubleCosine(m: MathLib, h: real, a: real)
    requires m.DoubleAngleLaw() && a == 2.0 * h
    ensures m.cos(a) == m.cos(h) * m.cos(h) - m.sin(h) * m.sin(h)
  {}

  lemma SineBound(m: MathLib, a: real)
    requires m.SineBoundLaw()
    ensures Abs(m.sin(a)) <= Abs(a)
  {}

  lemma HalfArithmetic(s: real, k: real, co: real, h: real)
    requires co == k * k - s * s && s * s + k * k == 1.0 && Abs(s) <= Abs(h)
    ensures 2.0 - 2.0 * co <= 4.0 * (h * h)
  {
    AbsSquare(s);
    AbsSquare(h);
    SquareMonotone(Abs(s), Abs(h));
  }

  lemma AbsSquare(x: real)
    ensures Abs(x) * Abs(x) == x * x
  {}

  lemma ChordLength(c: Circle, co: real, si: real)
    requires Frame(c) && co * co + si * si == 1.0
    ensures var w := Sub(At(c, co, si), At(c, 1.0, 0.0)); Dot(w, w) == c.radius * c.radius * (2.0 - 2.0 * co)
  {
    hide Dot, Cross;
    var v := Spoke(c, co - 1.0, si);
    ChordVector(c, co, si);
    DotScaled(v, Scale(v, c.radius), c.radius);
    DotSymmetric(v, Scale(v, c.radius));
    DotScaled(v, v, c.radius);
    SpokeLength(c, co - 1.0, si);
    assert (co - 1.0) * (co - 1.0) + si * si == 2.0 - 2.0 * co;
    ScaledTwice(c.radius, Dot(v, v), Dot(Scale(v, c.radius), Scale(v, c.radius)));
  }

  lemma ScaledTwice(r: real, d: real, e: real)
    requires e == r * (r * d)
    ensures e == r * r * d
  {}

  lemma ChordVector(c: Circle, co: real, si: real)
    ensures Sub(At(c, co, si), At(c, 1.0, 0.0)) == Scale(Spoke(c, co - 1.0, si), c.radius)
  {
    ChordCoordinate(c.center.x, c.e1.x, c.e2.x, co, si, c.radius);
    ChordCoordinate(c.center.y, c.e1.y, c.e2.y, co, si, c.radius);
    ChordCoordinate(c.center.z, c.e1.z, c.e2.z, co, si, c.radius);
  }

  lemma ChordCoordinate(center: real, a: real, b: real, co: real, si: real, r: real)
    ensures (center + (a * co + b * si) * r) - (center + (a * 1.0 + b * 0.0) * r) == (a * (co - 1.0) + b * si) * r
  {}

  lemma SpokeLength(c: Circle, x: real, y: real)
    requires Frame(c)
    ensures Dot(Spoke(c, x, y), Spoke(c, x, y)) == x * x + y * y
  {
    hide Dot, Cross;
    var u, v := Scale(c.e1, x), Scale(c.e2, y);
    DotAdd(u, v);
    DotScale(c.e1, x);
    DotScale(c.e2, y);
    DotScaled(c.e1, v, x);
    DotScaled(c.e2, c.e1, y);
    DotSymmetric(c.e1, v);
    DotSymmetric(c.e2, c.e1);
  }

  /** A radius of a thousand kilometres, in metres. */
  const WIDE_RADIUS := 1000000.0

  lemma TinyNormal(a: real, b: real, ab: real, n: real, rr: real, eps: real)
    requires 0.0 <= a <= rr * (eps * eps) && 0.0 <= b <= rr * (eps * eps) && n == a * b - ab * ab && eps == ANGLE_EPS
    requires 0.0 <= rr < WIDE_RADIUS * WIDE_RADIUS
    ensures n < COLLINEAR_EPS * COLLINEAR_EPS
  {
    ProductBound(a, b, ab, rr * (eps * eps));
    var q := rr * (eps * eps);
    assert 0.0 <= q < COLLINEAR_EPS;
    SquareStrict(q, COLLINEAR_EPS);
  }

  /** Accepting a snapped sweep takes a circle wider than a thousand kilometres. */
  lemma SnappedIsWide(m: MathLib, c: Circle, start: Vec3, mid: Vec3, end: Vec3, total: real)
    requires m.SqrtLaw() && m.CircleLaw() && m.DoubleAngleLaw() && m.SineBoundLaw() && m.PeriodLaw() && m.Atan2Law()
    requires Fitted(c, start, mid, end) && Norm(m, Normal(start, mid, end)) >= COLLINEAR_EPS
    requires ArcSweep(m, AngleOf(m, c, mid), AngleOf(m, c, end)) == Some(total) && Snapped(m, AngleOf(m, c, end), total)
    ensures c.radius >= WIDE_RADIUS
  {
    hide Dot, Sub, Cross, At, Norm, Normal, AngleOf, ArcSweep, Snapped, ModTwoPi, OnCircle;
    var mid', end' := SmallAngles(m, AngleOf(m, c, mid), AngleOf(m, c, end), total);
    NearFirst(m, c, start, mid, mid');
    NearFirst(m, c, start, end, end');
    if c.radius < WIDE_RADIUS {
      RadiusPositive(c);
      var rr := PositiveProduct(c.radius, c.radius);
      SquareStrict(c.radius, WIDE_RADIUS);
      var a, b := Sub(mid, start), Sub(end, start);
      DotSelf(a);
      DotSelf(b);
      Lagrange(a, b);
      var n := Normal(start, mid, end);
      assert n == Cross(a, b) by { NormalIs(start, mid, end); }
      TinyNormal(Dot(a, a), Dot(b, b), Dot(a, b), Dot(n, n), rr, ANGLE_EPS);
      NormSquare(m, n);
      SquareMonotone(COLLINEAR_EPS, Norm(m, n));
      assert false;
    }
  }

  lemma NormalIs(p1: Vec3, p2: Vec3, p3: Vec3)
    ensures Normal(p1, p2, p3) == Cross(Sub(p2, p1), Sub(p3, p1))
  {}

  /** Both angles of a snapped sweep, measured from the start to the nearer side. */
  lemma SmallAngles(m: MathLib, thetaMid: real, thetaEnd: real, total: real) returns (mid: real, end: real)
    requires m.PeriodLaw() && ArcSweep(m, thetaMid, thetaEnd) == Some(total) && Snapped(m, thetaEnd, total)
    ensures Abs(mid) <= ANGLE_EPS && Abs(end) <= ANGLE_EPS
    ensures m.sin(mid) == m.sin(thetaMid) && m.cos(mid) == m.cos(thetaMid)
    ensures m.sin(end) == m.sin(thetaEnd) && m.cos(end) == m.cos(thetaEnd)
  {
    hide ModTwoPi, ArcSweep, Snapped;
    SnappedExactly(m, thetaMid, thetaEnd, total);
    var j := ModFacts(m, thetaMid);
    var k := ModFacts(m, thetaEnd);
    ModSame(m, thetaMid);
    ModSame(m, thetaEnd);
    ModClockwise(m, thetaMid);
    ModClockwise(m, thetaEnd);
    SnappedSweep(m, thetaEnd, total);
    mid := if ModTwoPi(m, thetaMid) <= ANGLE_EPS then ModTwoPi(m, thetaMid) else -ModTwoPi(m, -thetaMid);
    end := if ModTwoPi(m, thetaEnd) <= ANGLE_EPS then ModTwoPi(m, thetaEnd) else -ModTwoPi(m, -thetaEnd);
  }

  lemma SnappedSweep(m: MathLib, thetaEnd: real, total: real)
    requires m.PeriodLaw() && Snapped(m, thetaEnd, total) && Abs(total) == 2.0 * m.pi
    ensures total > 0.0 || total < 0.0
  {}

  lemma NearFirst(m: MathLib, c: Circle, start: Vec3, p: Vec3, a: real)
    requires m.SqrtLaw() && m.CircleLaw() && m.DoubleAngleLaw() && m.SineBoundLaw() && m.Atan2Law()
    requires Frame(c) && start == At(c, 1.0, 0.0) && OnCircle(c, p) && Abs(a) <= ANGLE_EPS
    requires m.sin(a) == m.sin(AngleOf(m, c, p)) && m.cos(a) == m.cos(AngleOf(m, c, p))
    ensures Dot(Sub(p, start), Sub(p, start)) <= c.radius * c.radius * (ANGLE_EPS * ANGLE_EPS)
  {
    hide Dot, Sub, Cross, At, AngleOf, OnCircle, Frame;
    SampleAtAngle(m, c, p);
    ChordBound(m, c, p, a);
    AbsSquare(a);
    SquareMonotone(Abs(a), ANGLE_EPS);
    RadiusPositive(c);
    var rr := PositiveProduct(c.radius, c.radius);
    ScaleLe(rr, a * a, ANGLE_EPS * ANGLE_EPS);
  }

  /** On every circle of ordinary size the last waypoint is the end point. */
  lemma ArcEndsAtEnd(m: MathLib, c: Circle, start: Vec3, mid: Vec3, end: Vec3, total: real, n: nat,
      waypoints: seq<Vec3>)
    requires m.SqrtLaw() && m.CircleLaw() && m.DoubleAngleLaw() && m.SineBoundLaw() && m.PeriodLaw() && m.Atan2Law()
    requires Fitted(c, start, mid, end) && Norm(m, Normal(start, mid, end)) >= COLLINEAR_EPS && n >= 2
    requires ArcSweep(m, AngleOf(m, c, mid), AngleOf(m, c, end)) == Some(total) && Sampled(m, c, total, n, waypoints)
    requires c.radius < WIDE_RADIUS
    ensures waypoints[n - 1] == end
  {
    hide Fitted, AngleOf, ArcSweep, Snapped, Norm, Sampled;
    ArcEnd(m, c, start, mid, end, total, n, waypoints);
    if Snapped(m, AngleOf(m, c, end), total) {
      SnappedIsWide(m, c, start, mid, end, total);
    }
  }
}
