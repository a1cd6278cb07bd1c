/** Three points for which the last waypoint of an accepted arc is not the end point. */
module CircularSnap {
  import opened RealMath
  import opened Vectors
  import opened CircularPath
  import opened CircularWaypoints
  import LS = LinearSolve

  const X := 15999999999999999999999999.0
  const Y := 8000000000000.0
  const R := 16000000000000000000000001.0

  const FIRST := Vec3(R, 0.0, 0.0)
  const MIDDLE := Vec3(X, Y, 0.0)
  const LAST := Vec3(X, -Y, 0.0)
  const UP := Vec3(0.0, 0.0, 1.0)

  lemma Pythagorean()
    ensures X * X + Y * Y == R * R
  {
    assert 15999999999999999999999999.0 * 15999999999999999999999999.0 + 8000000000000.0 * 8000000000000.0
        == 16000000000000000000000001.0 * 16000000000000000000000001.0;
  }

  function Around(r: real): Circle { Circle(Zero3, UP, Vec3(1.0, 0.0, 0.0), Vec3(0.0, 1.0, 0.0), r) }

  lemma FrameAround(r: real)
    requires r > 0.0
    ensures Frame(Around(r))
  {}

  lemma StartAround(r: real)
    ensures At(Around(r), 1.0, 0.0) == Vec3(r, 0.0, 0.0)
  {}

  lemma AroundFits(x: real, y: real, r: real)
    requires x * x + y * y == r * r && r >= RADIUS_EPS
    ensures Fitted(Around(r), Vec3(r, 0.0, 0.0), Vec3(x, y, 0.0), Vec3(x, -y, 0.0))
  {
    hide Frame, OnCircle, At;
    FrameAround(r);
    StartAround(r);
    OnAround(x, y, r);
    OnAround(x, -y, r);
    OnAround(r, 0.0, r);
  }

  lemma OnAround(x: real, y: real, r: real)
    requires x * x + y * y == r * r
    ensures OnCircle(Around(r), Vec3(x, y, 0.0))
  {
    assert Sub(Vec3(x, y, 0.0), Zero3) == Vec3(x, y, 0.0);
  }

  lemma NormalAlongUp(x: real, y: real, r: real)
    requires x == r - 2.0
    ensures Normal(Vec3(r, 0.0, 0.0), Vec3(x, y, 0.0), Vec3(x, -y, 0.0)) == Vec3(0.0, 0.0, 4.0 * y)
  {}

  lemma NormUp(m: MathLib, z: real)
    requires m.SqrtLaw() && z > 0.0
    ensures Norm(m, Vec3(0.0, 0.0, z)) == z && Scale(Vec3(0.0, 0.0, z), 1.0 / z) == UP
  {
    NormSquare(m, Vec3(0.0, 0.0, z));
    SquareInjective(Norm(m, Vec3(0.0, 0.0, z)), z);
    DivideMultiply(1.0, z);
  }

  lemma NormalUp(m: MathLib)
    requires m.SqrtLaw()
    ensures Norm(m, Normal(FIRST, MIDDLE, LAST)) == 4.0 * Y && UnitNormal(m, FIRST, MIDDLE, LAST) == UP
  {
    hide Normal, Norm, Scale;
    NormalAlongUp(X, Y, R);
    NormUp(m, 4.0 * Y);
  }

  function Rows(a: real, b: real, c: real): LS.Matrix {
    [[-2.0, Y, 0.0, a], [-2.0, -Y, 0.0, b], [0.0, 0.0, 1.0, c]]
  }

  lemma SolverTakes()
    ensures SolverAccepts(FIRST, MIDDLE, LAST, UP)
  {
    SystemShape(FIRST, MIDDLE, LAST, UP);
    var v := CircleSystem(FIRST, MIDDLE, LAST, UP);
    assert v == Rows(v[0][3], v[1][3], v[2][3]);
    RowsReduce(v[0][3], v[1][3], v[2][3]);
  }

  lemma RowsReduce(a: real, b: real, c: real)
    ensures LS.Reduce(Rows(a, b, c), 3, 0, LS.CIRCULAR_SOLVE).Some?
  {
    var t := LS.CIRCULAR_SOLVE;
    var v := Rows(a, b, c);
    assert LS.Shape(v, 3);
    assert LS.PivotRow(v, 3, 0, 0, 1) == 0;
    LS.SwapSelf(v, 0);
    var w := [[-2.0, Y, 0.0, a], [0.0, -2.0 * Y, 0.0, b - a], [0.0, 0.0, 1.0, c]];
    FirstColumn(a, b, c);
    assert LS.Reduce(v, 3, 0, t) == LS.Reduce(w, 3, 1, t);
    SecondColumn(a, b, c);
  }

  /** Subtracting a multiple of one row of four from another, entry by entry. */
  lemma MinusRow(p: real, q: real, r: real, s: real, f: real, a: real, b: real, c: real, d: real)
    ensures LS.Minus([p, q, r, s], f, [a, b, c, d]) == [p - f * a, q - f * b, r - f * c, s - f * d]
  {
    var m := LS.Minus([p, q, r, s], f, [a, b, c, d]);
    assert m[0] == p - f * a && m[1] == q - f * b && m[2] == r - f * c && m[3] == s - f * d;
  }

  lemma FirstColumn(a: real, b: real, c: real)
    ensures LS.ClearBelow(Rows(a, b, c), 3, 0, 1)
         == [[-2.0, Y, 0.0, a], [0.0, -2.0 * Y, 0.0, b - a], [0.0, 0.0, 1.0, c]]
  {
    var v := Rows(a, b, c);
    assert v[1][0] / v[0][0] == 1.0;
    MinusRow(-2.0, -Y, 0.0, b, 1.0, -2.0, Y, 0.0, a);
    var u := LS.Clear(v, 3, 0, 1);
    assert u[1] == [0.0, -2.0 * Y, 0.0, b - a];
    assert u[2][0] / u[0][0] == 0.0;
    MinusRow(0.0, 0.0, 1.0, c, 0.0, -2.0, Y, 0.0, a);
    var w := LS.Clear(u, 3, 0, 2);
    assert w[2] == [0.0, 0.0, 1.0, c];
    assert LS.ClearBelow(w, 3, 0, 3) == w;
    assert LS.ClearBelow(u, 3, 0, 2) == w;
  }

  lemma SecondColumn(a: real, b: real, c: real)
    ensures var w := [[-2.0, Y, 0.0, a], [0.0, -2.0 * Y, 0.0, b - a], [0.0, 0.0, 1.0, c]];
            LS.Shape(w, 3) && LS.Reduce(w, 3, 1, LS.CIRCULAR_SOLVE).Some?
  {
    var w := [[-2.0, Y, 0.0, a], [0.0, -2.0 * Y, 0.0, b - a], [0.0, 0.0, 1.0, c]];
    var t := LS.CIRCULAR_SOLVE;
    assert LS.PivotRow(w, 3, 1, 1, 2) == 1;
    LS.SwapSelf(w, 1);
    assert w[2][1] / w[1][1] == 0.0;
    MinusRow(0.0, 0.0, 1.0, c, 0.0, 0.0, -2.0 * Y, 0.0, b - a);
    var u := LS.Clear(w, 3, 1, 2);
    assert u[2] == [0.0, 0.0, 1.0, c];
    assert u == w;
    assert LS.ClearBelow(w, 3, 1, 3) == w;
    assert LS.ClearBelow(w, 3, 1, 2) == w;
    assert LS.Reduce(w, 3, 1, t) == LS.Reduce(w, 3, 2, t);
    assert LS.PivotRow(w, 3, 2, 2, 3) == 2;
    LS.SwapSelf(w, 2);
    assert LS.ClearBelow(w, 3, 2, 3) == w;
    assert LS.Reduce(w, 3, 2, t) == LS.Reduce(w, 3, 3, t);
  }

  lemma SmallAngle(m: MathLib) returns (angle: real)
    requires m.SlopeLaw()
    ensures 0.0 < angle <= 0.9 * ANGLE_EPS && angle == m.atan2(Y, X) && m.atan2(-Y, X) == -angle
  {
    angle := m.atan2(Y, X);
    Cancel(X, angle, 0.9 * ANGLE_EPS);
  }

  lemma AngleAround(m: MathLib, x: real, y: real, r: real)
    ensures AngleOf(m, Around(r), Vec3(x, y, 0.0)) == m.atan2(y, x)
  {
    assert Sub(Vec3(x, y, 0.0), Zero3) == Vec3(x, y, 0.0);
    assert Dot(Vec3(x, y, 0.0), Vec3(1.0, 0.0, 0.0)) == x && Dot(Vec3(x, y, 0.0), Vec3(0.0, 1.0, 0.0)) == y;
  }

  lemma SweepAround(m: MathLib, angle: real)
    requires m.PeriodLaw() && 0.0 < angle <= 0.9 * ANGLE_EPS
    ensures ArcSweep(m, angle, -angle) == Some(-2.0 * m.pi) && Snapped(m, -angle, -2.0 * m.pi)
  {
    hide ModTwoPi;
    ModIdentity(m, angle);
    ModClockwise(m, angle);
    ModClockwise(m, -angle);
    var k := ModFacts(m, -angle);
  }

  lemma FarFits(m: MathLib)
    requires m.SqrtLaw()
    ensures FitReturns(m, Around(R), FIRST, MIDDLE, LAST)
  {
    hide Fitted, Norm, Normal, UnitNormal, SolverAccepts;
    Pythagorean();
    AroundFits(X, Y, R);
    NormalUp(m);
    SolverTakes();
  }

  lemma FarSweep(m: MathLib)
    requires m.PeriodLaw() && m.SlopeLaw()
    ensures ArcSweep(m, AngleOf(m, Around(R), MIDDLE), AngleOf(m, Around(R), LAST)) == Some(-2.0 * m.pi)
    ensures Snapped(m, AngleOf(m, Around(R), LAST), -2.0 * m.pi)
  {
    hide AngleOf, ArcSweep, Snapped, MathLib.SlopeLaw, MathLib.PeriodLaw;
    var angle := SmallAngle(m);
    AngleAround(m, X, Y, R);
    AngleAround(m, X, -Y, R);
    SweepAround(m, angle);
  }

  lemma NotAtEnd(m: MathLib, c: Circle, start: Vec3, mid: Vec3, end: Vec3, total: real, n: nat, waypoints: seq<Vec3>)
    requires m.SqrtLaw() && m.CircleLaw() && m.PeriodLaw() && m.Atan2Law() && n >= 2
    requires FitReturns(m, c, start, mid, end)
    requires ArcSweep(m, AngleOf(m, c, mid), AngleOf(m, c, end)) == Some(total) && Snapped(m, AngleOf(m, c, end), total)
    ensures Sampled(m, c, total, n, waypoints) ==> waypoints[n - 1] != end
  {
    hide Fitted, AngleOf, ArcSweep, Snapped, Norm, Normal, Sampled, SolverAccepts;
    if Sampled(m, c, total, n, waypoints) {
      ArcEnd(m, c, start, mid, end, total, n, waypoints);
    }
  }

  /**
   * These three points are fitted and their arc is accepted, but however many waypoints are
   * asked for, the last one is not the end point.
   */
  lemma LastIsNotEnd(m: MathLib, n: nat, waypoints: seq<Vec3>)
    requires m.SqrtLaw() && m.CircleLaw() && m.PeriodLaw() && m.Atan2Law() && m.SlopeLaw() && n >= 2
    ensures var c := Around(R);
            && FitReturns(m, c, FIRST, MIDDLE, LAST)
            && ArcSweep(m, AngleOf(m, c, MIDDLE), AngleOf(m, c, LAST)) == Some(-2.0 * m.pi)
            && (Sampled(m, c, -2.0 * m.pi, n, waypoints) ==> waypoints[n - 1] != LAST)
  {
    hide Fitted, AngleOf, ArcSweep, Snapped, Norm, Normal, Sampled, FitReturns, MathLib.SlopeLaw, Around,
         MathLib.SqrtLaw, MathLib.CircleLaw, MathLib.Atan2Law, MathLib.PeriodLaw;
    FarFits(m);
    FarSweep(m);
    NotAtEnd(m, Around(R), FIRST, MIDDLE, LAST, -2.0 * m.pi, n, waypoints);
  }
}
