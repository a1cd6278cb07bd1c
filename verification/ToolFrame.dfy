/** What the orientations mean for vectors, and how the tool turns with a circular path. */
module ToolFrame {
  import opened RealMath
  import opened Vectors
  import opened Quaternions
  import opened SlerpPath
  import opened CircularPath
  import opened CircularOrientation

  function Pure(v: Vec3): Quat { Quat(0.0, v.x, v.y, v.z) }

  function VectorPart(q: Quat): Vec3 { Vec3(q.x, q.y, q.z) }

  /** The vector `v` turned by the rotation of the unit quaternion `q`. */
  function Turned(q: Quat, v: Vec3): Vec3 { VectorPart(Multiply(Multiply(q, Pure(v)), Conjugate(q))) }

  function Applied(r: Mat3, v: Vec3): Vec3 {
    Vec3(Row(r.m00, r.m01, r.m02, v.x, v.y, v.z), Row(r.m10, r.m11, r.m12, v.x, v.y, v.z),
         Row(r.m20, r.m21, r.m22, v.x, v.y, v.z))
  }

  // ---- a rotation by its axis and half angle ----

  function Along(w: real, k: real, d: real, a: real, x: real, cross: real): real {
    (w * w - k) * a + 2.0 * (d * x) + 2.0 * (w * cross)
  }

  function SideX(w: real, x: real, y: real, z: real, p: real, q: real, r: real,
      s: real): real { p * (-x) + q * w + r * (-z) - s * (-y) }

  function SideY(w: real, x: real, y: real, z: real, p: real, q: real, r: real,
      s: real): real { p * (-y) - q * (-z) + r * w + s * (-x) }

  function SideZ(w: real, x: real, y: real, z: real, p: real, q: real, r: real,
      s: real): real { p * (-z) + q * (-y) - r * (-x) + s * w }

  lemma TurnedX(w: real, x: real, y: real, z: real, a: real, b: real, c: real,
      p: real, q: real, r: real, s: real, k: real, d: real, f: real)
    requires p == -(x * a) - y * b - z * c && q == w * a + y * c - z * b
    requires r == w * b - x * c + z * a && s == w * c + x * b - y * a
    requires k == x * x + y * y + z * z && d == x * a + y * b + z * c && f == y * c - z * b
    ensures SideX(w, x, y, z, p, q, r, s) == Along(w, k, d, a, x, f)
  {}

  lemma TurnedY(w: real, x: real, y: real, z: real, a: real, b: real, c: real,
      p: real, q: real, r: real, s: real, k: real, d: real, f: real)
    requires p == -(x * a) - y * b - z * c && q == w * a + y * c - z * b
    requires r == w * b - x * c + z * a && s == w * c + x * b - y * a
    requires k == x * x + y * y + z * z && d == x * a + y * b + z * c && f == z * a - x * c
    ensures SideY(w, x, y, z, p, q, r, s) == Along(w, k, d, b, y, f)
  {}

  lemma TurnedZ(w: real, x: real, y: real, z: real, a: real, b: real, c: real,
      p: real, q: real, r: real, s: real, k: real, d: real, f: real)
    requires p == -(x * a) - y * b - z * c && q == w * a + y * c - z * b
    requires r == w * b - x * c + z * a && s == w * c + x * b - y * a
    requires k == x * x + y * y + z * z && d == x * a + y * b + z * c && f == x * b - y * a
    ensures SideZ(w, x, y, z, p, q, r, s) == Along(w, k, d, c, z, f)
  {}

  function Sandwich(q: Quat, r: Quat): Vec3 {
    Vec3(SideX(q.w, q.x, q.y, q.z, r.w, r.x, r.y, r.z), SideY(q.w, q.x, q.y, q.z, r.w, r.x, r.y, r.z),
         SideZ(q.w, q.x, q.y, q.z, r.w, r.x, r.y, r.z))
  }

  lemma SandwichIs(q: Quat, r: Quat)
    ensures VectorPart(Multiply(r, Conjugate(q))) == Sandwich(q, r)
  {}

  lemma Parts(q: Quat, v: Vec3, u: Vec3)
    requires u == VectorPart(q)
    ensures Dot(u, u) == q.x * q.x + q.y * q.y + q.z * q.z && Dot(u, v) == q.x * v.x + q.y * v.y + q.z * v.z
    ensures var f := Cross(u, v);
            f.x == q.y * v.z - q.z * v.y && f.y == q.z * v.x - q.x * v.z && f.z == q.x * v.y - q.y * v.x
  {}

  lemma UnitParts(q: Quat)
    requires Unit(q)
    ensures q.w * q.w == 1.0 - (q.x * q.x + q.y * q.y + q.z * q.z)
  {}

  lemma SandwichAlong(q: Quat, v: Vec3, u: Vec3)
    requires u == VectorPart(q)
    ensures var k, d, f := Dot(u, u), Dot(u, v), Cross(u, v); var t := Sandwich(q, Multiply(q, Pure(v)));
            && t.x == Along(q.w, k, d, v.x, u.x, f.x) && t.y == Along(q.w, k, d, v.y, u.y, f.y)
            && t.z == Along(q.w, k, d, v.z, u.z, f.z)
  {
    hide Along, Multiply, SideX, SideY, SideZ, Dot, Cross;
    var r := Multiply(q, Pure(v));
    var k, d, f := Dot(u, u), Dot(u, v), Cross(u, v);
    Parts(q, v, u);
    PureProduct(q, v, r);
    TurnedX(q.w, q.x, q.y, q.z, v.x, v.y, v.z, r.w, r.x, r.y, r.z, k, d, f.x);
    TurnedY(q.w, q.x, q.y, q.z, v.x, v.y, v.z, r.w, r.x, r.y, r.z, k, d, f.y);
    TurnedZ(q.w, q.x, q.y, q.z, v.x, v.y, v.z, r.w, r.x, r.y, r.z, k, d, f.z);
  }

  lemma PureProduct(q: Quat, v: Vec3, r: Quat)
    requires r == Multiply(q, Pure(v))
    ensures r.w == -(q.x * v.x) - q.y * v.y - q.z * v.z && r.x == q.w * v.x + q.y * v.z - q.z * v.y
    ensures r.y == q.w * v.y - q.x * v.z + q.z * v.x && r.z == q.w * v.z + q.x * v.y - q.y * v.x
  {}

  /** The rotation formula for a vector: along the axis, across it, and the rest. */
  lemma TurnedFormula(q: Quat, v: Vec3, u: Vec3)
    requires u == VectorPart(q)
    ensures var k, d, f := Dot(u, u), Dot(u, v), Cross(u, v);
            Turned(q, v) == Vec3(Along(q.w, k, d, v.x, u.x, f.x), Along(q.w, k, d, v.y, u.y, f.y),
                                 Along(q.w, k, d, v.z, u.z, f.z))
  {
    hide Along, Multiply, Sandwich, Dot, Cross;
    SandwichIs(q, Multiply(q, Pure(v)));
    SandwichAlong(q, v, u);
  }

  // ---- the rotation matrix is that rotation ----

  function Row(r0: real, r1: real, r2: real, a: real, b: real, c: real): real { r0 * a + r1 * b + r2 * c }

  lemma MatrixRows(q: Quat, v: Vec3, u: Vec3)
    requires Unit(q) && u == VectorPart(q)
    ensures var k, d, f := Dot(u, u), Dot(u, v), Cross(u, v);
            Applied(Rotation(q), v) == Vec3(Along(q.w, k, d, v.x, u.x, f.x), Along(q.w, k, d, v.y, u.y, f.y),
                                            Along(q.w, k, d, v.z, u.z, f.z))
  {
    hide Diagonal, SumEntry, DifferenceEntry, Along, Row, Dot, Cross, Unit;
    var k, d, f := Dot(u, u), Dot(u, v), Cross(u, v);
    UnitParts(q);
    Parts(q, v, u);
    RowX(q.w, q.x, q.y, q.z, v.x, v.y, v.z, k, d, f.x);
    RowY(q.w, q.x, q.y, q.z, v.x, v.y, v.z, k, d, f.y);
    RowZ(q.w, q.x, q.y, q.z, v.x, v.y, v.z, k, d, f.z);
  }

  lemma RowX(w: real, x: real, y: real, z: real, a: real, b: real, c: real, k: real, d: real, f: real)
    requires w * w == 1.0 - k && k == x * x + y * y + z * z && d == x * a + y * b + z * c && f == y * c - z * b
    ensures Row(Diagonal(y, z), DifferenceEntry(x, y, z, w), SumEntry(x, z, y, w), a, b, c)
         == Along(w, k, d, a, x, f)
  {
    assert (1.0 - k - k) * a == (1.0 - 2.0 * (y * y + z * z)) * a - 2.0 * (x * x) * a;
  }

  lemma RowY(w: real, x: real, y: real, z: real, a: real, b: real, c: real, k: real, d: real, f: real)
    requires w * w == 1.0 - k && k == x * x + y * y + z * z && d == x * a + y * b + z * c && f == z * a - x * c
    ensures Row(SumEntry(x, y, z, w), Diagonal(x, z), DifferenceEntry(y, z, x, w), a, b, c)
         == Along(w, k, d, b, y, f)
  {
    assert (1.0 - k - k) * b == (1.0 - 2.0 * (x * x + z * z)) * b - 2.0 * (y * y) * b;
  }

  lemma RowZ(w: real, x: real, y: real, z: real, a: real, b: real, c: real, k: real, d: real, f: real)
    requires w * w == 1.0 - k && k == x * x + y * y + z * z && d == x * a + y * b + z * c && f == x * b - y * a
    ensures Row(DifferenceEntry(x, z, y, w), SumEntry(y, z, x, w), Diagonal(x, y), a, b, c)
         == Along(w, k, d, c, z, f)
  {
    assert (1.0 - k - k) * c == (1.0 - 2.0 * (x * x + y * y)) * c - 2.0 * (z * z) * c;
  }

  /** The matrix of a unit quaternion turns every vector as the quaternion does. */
  lemma RotationTurns(q: Quat, v: Vec3)
    requires Unit(q)
    ensures Applied(Rotation(q), v) == Turned(q, v)
  {
    hide Along, Rotation, Turned, Applied, Dot, Cross, Unit;
    TurnedFormula(q, v, VectorPart(q));
    MatrixRows(q, v, VectorPart(q));
  }

  // ---- turning about the axis of a circle ----

  lemma UnitNorm(m: MathLib, n: Vec3)
    requires m.SqrtLaw() && Dot(n, n) == 1.0
    ensures Norm(m, n) == 1.0 && Scale(n, 1.0 / 1.0) == n
  {
    NormSquare(m, n);
    SquareInjective(Norm(m, n), 1.0);
  }

  lemma AxisLength(c: real, s: real, n: Vec3)
    requires c * c + s * s == 1.0 && Dot(n, n) == 1.0
    ensures Unit(AboutAxis(c, s, n))
  {
    AxisSquares(s, n.x, n.y, n.z, 1.0);
  }

  lemma AxisSquares(s: real, x: real, y: real, z: real, k: real)
    requires k == x * x + y * y + z * z
    ensures (s * x) * (s * x) + (s * y) * (s * y) + (s * z) * (s * z) == (s * s) * k
  {}

  /** The quaternion of a turn about a unit axis: cosine and sine of half the angle. */
  lemma AxisAngleIs(m: MathLib, n: Vec3, angle: real) returns (c: real, s: real)
    requires m.SqrtLaw() && m.CircleLaw() && Dot(n, n) == 1.0
    ensures c == m.cos(0.5 * angle) && s == m.sin(0.5 * angle) && c * c + s * s == 1.0
    ensures AxisAngle(m, n, angle) == AboutAxis(c, s, n)
  {
    s, c := CircleOf(m, 0.5 * angle);
    hide Norm, Scale, Normalize, Dot, Unit, AboutAxis;
    UnitNorm(m, n);
    AxisLength(c, s, n);
    UnitNormalize(m, AboutAxis(c, s, n));
  }

  /** Half-angle quaternion about `n`, applied to a vector `v` across it. */
  lemma TurnAcross(c: real, s: real, n: Vec3, v: Vec3, a: real, b: real)
    requires Dot(n, n) == 1.0 && Dot(n, v) == 0.0 && a == c * c - s * s && b == 2.0 * (s * c)
    ensures Turned(AboutAxis(c, s, n), v) == Add(Scale(v, a), Scale(Cross(n, v), b))
  {
    hide Along, Turned, Dot, Cross;
    var q := AboutAxis(c, s, n);
    var u := VectorPart(q);
    var k, d, f, g := Dot(u, u), Dot(u, v), Cross(n, v), Cross(u, v);
    TurnedFormula(q, v, u);
    ScaledAxis(c, s, n, v, u);
    AcrossCoordinate(c, s, k, d, v.x, u.x, f.x, g.x, a, b);
    AcrossCoordinate(c, s, k, d, v.y, u.y, f.y, g.y, a, b);
    AcrossCoordinate(c, s, k, d, v.z, u.z, f.z, g.z, a, b);
  }

  lemma AcrossCoordinate(c: real, s: real, k: real, d: real, v: real, x: real, f: real, g: real, a: real, b: real)
    requires k == s * s && d == 0.0 && g == s * f && a == c * c - s * s && b == 2.0 * (s * c)
    ensures Along(c, k, d, v, x, g) == v * a + f * b
  {}

  lemma ScaledSum(s: real, a: real, b: real, c: real, x: real, y: real, z: real)
    ensures (s * a) * x + (s * b) * y + (s * c) * z == s * (a * x + b * y + c * z)
  {
    assert (s * a) * x == s * (a * x) && (s * b) * y == s * (b * y) && (s * c) * z == s * (c * z);
  }

  lemma ScaledMinor(s: real, a: real, b: real, x: real, y: real)
    ensures (s * a) * y - (s * b) * x == s * (a * y - b * x)
  {
    assert (s * a) * y == s * (a * y) && (s * b) * x == s * (b * x);
  }

  lemma ScaledAxis(c: real, s: real, n: Vec3, v: Vec3, u: Vec3)
    requires Dot(n, n) == 1.0 && Dot(n, v) == 0.0 && u == VectorPart(AboutAxis(c, s, n))
    ensures Dot(u, u) == s * s && Dot(u, v) == 0.0
    ensures var f, g := Cross(n, v), Cross(u, v); g.x == s * f.x && g.y == s * f.y && g.z == s * f.z
  {
    AxisSquares(s, n.x, n.y, n.z, 1.0);
    ScaledSum(s, n.x, n.y, n.z, v.x, v.y, v.z);
    ScaledMinor(s, n.y, n.z, v.y, v.z);
    ScaledMinor(s, n.z, n.x, v.z, v.x);
    ScaledMinor(s, n.x, n.y, v.x, v.y);
  }

  /** The turn about the axis of a circle carries its frame around by the angle. */
  lemma FrameTurns(m: MathLib, c: Circle, angle: real)
    requires m.SqrtLaw() && m.CircleLaw() && m.DoubleAngleLaw() && Frame(c)
    ensures var q := AxisAngle(m, c.axis, angle);
            && Turned(q, c.e1) == Spoke(c, m.cos(angle), m.sin(angle))
            && Turned(q, c.e2) == Spoke(c, -m.sin(angle), m.cos(angle))
  {
    hide AxisAngle, AboutAxis, Turned, Dot, Cross, Frame, Spoke, Add, Scale;
    FrameParts(c);
    var co, si := AxisAngleIs(m, c.axis, angle);
    HalfAngle(m, angle, co, si);
    TurnAcross(co, si, c.axis, c.e1, m.cos(angle), m.sin(angle));
    TurnAcross(co, si, c.axis, c.e2, m.cos(angle), m.sin(angle));
    SpokeOfTurn(c, m.cos(angle), m.sin(angle));
  }

  lemma HalfAngle(m: MathLib, angle: real, c: real, s: real)
    requires m.DoubleAngleLaw() && c == m.cos(0.5 * angle) && s == m.sin(0.5 * angle)
    ensures m.cos(angle) == c * c - s * s && m.sin(angle) == 2.0 * (s * c)
  {
    assert 2.0 * (0.5 * angle) == angle;
  }

  lemma FrameParts(c: Circle)
    requires Frame(c)
    ensures Dot(c.axis, c.axis) == 1.0 && Dot(c.axis, c.e1) == 0.0 && Dot(c.axis, c.e2) == 0.0
    ensures Cross(c.axis, c.e1) == c.e2 && Cross(c.axis, c.e2) == Scale(c.e1, -1.0)
  {
    hide Dot, Cross;
    DoubleCross(c.axis, c.axis, c.e1);
    BackToFirst(c.axis, c.e1);
  }

  lemma BackToFirst(axis: Vec3, e1: Vec3)
    ensures Sub(Scale(axis, 0.0), Scale(e1, 1.0)) == Scale(e1, -1.0)
  {}

  lemma SpokeOfTurn(c: Circle, co: real, si: real)
    ensures Add(Scale(c.e1, co), Scale(c.e2, si)) == Spoke(c, co, si)
    ensures Add(Scale(c.e2, co), Scale(Scale(c.e1, -1.0), si)) == Spoke(c, -si, co)
  {}

  // ---- the orientation along a circular path ----

  /** What the path leaves for the tool to turn by on its own. */
  function Remainder(m: MathLib, start: Quat, end: Quat, axis: Vec3, total: real): Quat {
    Leftover(m, Normalize(m, end), Multiply(AxisAngle(m, axis, total), Normalize(m, start)))
  }

  /** The turn of the tool relative to the path at the share `s`. */
  function OwnTurn(m: MathLib, start: Quat, end: Quat, axis: Vec3, total: real, s: real): Quat {
    Multiply(Orientation(m, start, end, axis, total, s), Conjugate(Predicted(m, Normalize(m, start), axis, total, s)))
  }

  lemma ConjugateTwice(q: Quat)
    ensures Conjugate(Conjugate(q)) == q
  {}

  lemma UndoRight(p: Quat, q: Quat)
    requires Unit(q)
    ensures Multiply(Multiply(p, q), Conjugate(q)) == p
  {
    ConjugateTwice(q);
    ConjugateUnit(q);
    ConjugateCancels(p, Conjugate(q));
  }

  /** Relative to the path the tool makes exactly the interpolated turn, and nothing else. */
  lemma OwnTurnIs(m: MathLib, start: Quat, end: Quat, axis: Vec3, total: real, s: real)
    requires m.SqrtLaw() && m.CircleLaw() && 0.0 <= s <= 1.0
    ensures OwnTurn(m, start, end, axis, total, s) == Slerp(m, Identity, Remainder(m, start, end, axis, total), s)
  {
    hide Normalize, Multiply, Slerp, AxisAngle, Leftover, Unit, Conjugate, Predicted;
    var p, turn := Predicted(m, Normalize(m, start), axis, total, s),
        Slerp(m, Identity, Remainder(m, start, end, axis, total), s);
    NormalizeUnit(m, start);
    PredictedUnit(m, Normalize(m, start), axis, total, s);
    SlerpIsUnit(m, Identity, Remainder(m, start, end, axis, total), s);
    MultiplyUnit(turn, p);
    UnitNormalize(m, Multiply(turn, p));
    UndoRight(turn, p);
  }

  lemma PredictedUnit(m: MathLib, start: Quat, axis: Vec3, total: real, s: real)
    requires m.SqrtLaw() && Unit(start)
    ensures Unit(Predicted(m, start, axis, total, s))
  {
    hide Multiply, AxisAngle, Unit;
    AxisAngleUnit(m, axis, s * total);
    MultiplyUnit(AxisAngle(m, axis, s * total), start);
  }

  lemma RemainderFacts(m: MathLib, start: Quat, end: Quat, axis: Vec3, total: real)
    requires m.SqrtLaw()
    ensures var left := Remainder(m, start, end, axis, total);
            Normalize(m, left) == left && Normalize(m, Identity) == Identity && Nearer(Identity, left) == left
            && 0.0 <= left.w <= 1.0 && Inner(Identity, left) == left.w
  {
    hide Normalize, Multiply, AxisAngle, Leftover, Unit, Conjugate, Inner;
    NormalizeUnit(m, start);
    NormalizeUnit(m, end);
    AxisAngleUnit(m, axis, total);
    MultiplyUnit(AxisAngle(m, axis, total), Normalize(m, start));
    LeftoverFacts(m, Normalize(m, end), Multiply(AxisAngle(m, axis, total), Normalize(m, start)));
    var left := Remainder(m, start, end, axis, total);
    UnitNormalize(m, left);
    IdentityMultiply(Identity);
    UnitNormalize(m, Identity);
    IdentityInner(left);
    InnerBound(Identity, left);
  }

  /**
   * The orientation along a circular path: carried around with the path (`FrameTurns`), and relative to it
   * turned at constant speed towards the end orientation, or along the chord when hardly anything is left.
   */
  lemma OwnTurnSpeed(m: MathLib, start: Quat, end: Quat, axis: Vec3, total: real, s: real, t: real)
    requires m.SqrtLaw() && m.CircleLaw() && m.CosineDifferenceLaw() && 0.0 <= s <= 1.0 && 0.0 <= t <= 1.0
    ensures var left := Remainder(m, start, end, axis, total);
            && (left.w <= 0.9995 ==>
                  Inner(OwnTurn(m, start, end, axis, total, s), OwnTurn(m, start, end, axis, total, t))
                  == m.cos((t - s) * m.acos(left.w)))
            && (left.w > 0.9995 ==> exists f :: OnChord(OwnTurn(m, start, end, axis, total, s), Identity, left, s, f))
  {
    hide Normalize, Slerp, OwnTurn, Remainder, Inner, Nearer, OnChord;
    OwnTurnIs(m, start, end, axis, total, s);
    OwnTurnIs(m, start, end, axis, total, t);
    RemainderFacts(m, start, end, axis, total);
    var left := Remainder(m, start, end, axis, total);
    SlerpSpeed(m, Identity, left, s, t);
    var f := SlerpChord(m, Identity, left, s);
  }
}
