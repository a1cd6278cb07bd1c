/** The tool orientation along a circular path. */
module CircularOrientation {
  import opened RealMath
  import opened Vectors
  import opened Quaternions
  import opened CircularPath

  // The four components of a quaternion product.

  function ProductW(a: real, b: real, c: real, d: real, e: real, f: real, g: real,
      h: real): real { a * e - b * f - c * g - d * h }

  function ProductX(a: real, b: real, c: real, d: real, e: real, f: real, g: real,
      h: real): real { a * f + b * e + c * h - d * g }

  function ProductY(a: real, b: real, c: real, d: real, e: real, f: real, g: real,
      h: real): real { a * g - b * h + c * e + d * f }

  function ProductZ(a: real, b: real, c: real, d: real, e: real, f: real, g: real,
      h: real): real { a * h + b * g - c * f + d * e }

  function Multiply(p: Quat, q: Quat): Quat {
    Quat(ProductW(p.w, p.x, p.y, p.z, q.w, q.x, q.y, q.z), ProductX(p.w, p.x, p.y, p.z, q.w, q.x, q.y, q.z),
         ProductY(p.w, p.x, p.y, p.z, q.w, q.x, q.y, q.z), ProductZ(p.w, p.x, p.y, p.z, q.w, q.x, q.y, q.z))
  }

  function Conjugate(q: Quat): Quat { Quat(q.w, -q.x, -q.y, -q.z) }

  function AboutAxis(c: real, s: real, u: Vec3): Quat { Quat(c, s * u.x, s * u.y, s * u.z) }

  function AxisAngle(m: MathLib, axis: Vec3, angle: real): Quat {
    var norm := Norm(m, axis);
    if norm <= COLLINEAR_EPS then Identity
    else
      var u := Scale(axis, 1.0 / norm);
      var half := 0.5 * angle;
      Normalize(m, AboutAxis(m.cos(half), m.sin(half), u))
  }

  /** The rotation that the path itself does not explain, on the shorter side. */
  function Leftover(m: MathLib, end: Quat, predicted: Quat): Quat {
    var q := Normalize(m, Multiply(end, Conjugate(predicted)));
    if q.w < 0.0 then Negate(q) else q
  }

  /** The start orientation, turned with the path to the share `s` of the sweep. */
  function Predicted(m: MathLib, start: Quat, axis: Vec3, total: real, s: real): Quat {
    Multiply(AxisAngle(m, axis, s * total), start)
  }

  function Orientation(m: MathLib, startOrientation: Quat, endOrientation: Quat, axis: Vec3, total: real,
      at: real): Quat {
    var start, end := Normalize(m, startOrientation), Normalize(m, endOrientation);
    var s := ClampReal(at, 0.0, 1.0);
    var predicted := Predicted(m, start, axis, total, s);
    var predictedEnd := Multiply(AxisAngle(m, axis, total), start);
    Normalize(m, Multiply(Slerp(m, Identity, Leftover(m, end, predictedEnd), s), predicted))
  }

  /** Euler's identity for four squares, for factors of length one. */
  lemma FourSquares(a: real, b: real, c: real, d: real, e: real, f: real, g: real, h: real, p: real, q: real,
                    w: real, x: real, y: real, z: real)
    requires p == a * a + b * b + c * c + d * d && q == e * e + f * f + g * g + h * h
    requires w == a * e - b * f - c * g - d * h && x == a * f + b * e + c * h - d * g
    requires y == a * g - b * h + c * e + d * f && z == a * h + b * g - c * f + d * e
    ensures w * w + x * x + y * y + z * z == p * q
  {}

  lemma ProductLength(a: real, b: real, c: real, d: real, e: real, f: real, g: real, h: real)
    requires Inner4(a, b, c, d, a, b, c, d) == 1.0 && Inner4(e, f, g, h, e, f, g, h) == 1.0
    ensures var (w, x, y, z) := (ProductW(a, b, c, d, e, f, g, h), ProductX(a, b, c, d, e, f, g, h),
                                 ProductY(a, b, c, d, e, f, g, h), ProductZ(a, b, c, d, e, f, g, h));
            Inner4(w, x, y, z, w, x, y, z) == 1.0
  {
    FourSquares(a, b, c, d, e, f, g, h, 1.0, 1.0, ProductW(a, b, c, d, e, f, g, h), ProductX(a, b, c, d, e, f, g, h),
                ProductY(a, b, c, d, e, f, g, h), ProductZ(a, b, c, d, e, f, g, h));
  }

  lemma MultiplyUnit(p: Quat, q: Quat)
    requires Unit(p) && Unit(q)
    ensures Unit(Multiply(p, q))
  {
    hide Inner4, ProductW, ProductX, ProductY, ProductZ;
    ProductLength(p.w, p.x, p.y, p.z, q.w, q.x, q.y, q.z);
  }

  lemma ConjugateUnit(q: Quat)
    requires Unit(q)
    ensures Unit(Conjugate(q))
  {}

  lemma CancelW(a: real, b: real, c: real, d: real, e: real, f: real, g: real, h: real, w: real, x: real, y: real,
      z: real, n: real)
    requires w == a * e + b * f + c * g + d * h && x == b * e - a * f - c * h + d * g
    requires y == c * e - a * g + b * h - d * f && z == d * e - a * h - b * g + c * f
    requires n == e * e + f * f + g * g + h * h
    ensures ProductW(w, x, y, z, e, f, g, h) == a * n
  {}

  lemma CancelX(a: real, b: real, c: real, d: real, e: real, f: real, g: real, h: real, w: real, x: real, y: real,
      z: real, n: real)
    requires w == a * e + b * f + c * g + d * h && x == b * e - a * f - c * h + d * g
    requires y == c * e - a * g + b * h - d * f && z == d * e - a * h - b * g + c * f
    requires n == e * e + f * f + g * g + h * h
    ensures ProductX(w, x, y, z, e, f, g, h) == b * n
  {}

  lemma CancelY(a: real, b: real, c: real, d: real, e: real, f: real, g: real, h: real, w: real, x: real, y: real,
      z: real, n: real)
    requires w == a * e + b * f + c * g + d * h && x == b * e - a * f - c * h + d * g
    requires y == c * e - a * g + b * h - d * f && z == d * e - a * h - b * g + c * f
    requires n == e * e + f * f + g * g + h * h
    ensures ProductY(w, x, y, z, e, f, g, h) == c * n
  {}

  lemma CancelZ(a: real, b: real, c: real, d: real, e: real, f: real, g: real, h: real, w: real, x: real, y: real,
      z: real, n: real)
    requires w == a * e + b * f + c * g + d * h && x == b * e - a * f - c * h + d * g
    requires y == c * e - a * g + b * h - d * f && z == d * e - a * h - b * g + c * f
    requires n == e * e + f * f + g * g + h * h
    ensures ProductZ(w, x, y, z, e, f, g, h) == d * n
  {}

  lemma ConjugateProduct(a: real, b: real, c: real, d: real, e: real, f: real, g: real, h: real)
    ensures ProductW(a, b, c, d, e, -f, -g, -h) == a * e + b * f + c * g + d * h
    ensures ProductX(a, b, c, d, e, -f, -g, -h) == b * e - a * f - c * h + d * g
    ensures ProductY(a, b, c, d, e, -f, -g, -h) == c * e - a * g + b * h - d * f
    ensures ProductZ(a, b, c, d, e, -f, -g, -h) == d * e - a * h - b * g + c * f
  {}

  lemma ProductConjugate(a: real, b: real, c: real, d: real, e: real, f: real, g: real, h: real, w: real, x: real,
      y: real, z: real)
    requires w == ProductW(a, b, c, d, e, -f, -g, -h) && x == ProductX(a, b, c, d, e, -f, -g, -h)
    requires y == ProductY(a, b, c, d, e, -f, -g, -h) && z == ProductZ(a, b, c, d, e, -f, -g, -h)
    requires Inner4(e, f, g, h, e, f, g, h) == 1.0
    ensures ProductW(w, x, y, z, e, f, g, h) == a && ProductX(w, x, y, z, e, f, g, h) == b
    ensures ProductY(w, x, y, z, e, f, g, h) == c && ProductZ(w, x, y, z, e, f, g, h) == d
  {
    hide ProductW, ProductX, ProductY, ProductZ;
    ConjugateProduct(a, b, c, d, e, f, g, h);
    CancelW(a, b, c, d, e, f, g, h, w, x, y, z, 1.0);
    CancelX(a, b, c, d, e, f, g, h, w, x, y, z, 1.0);
    CancelY(a, b, c, d, e, f, g, h, w, x, y, z, 1.0);
    CancelZ(a, b, c, d, e, f, g, h, w, x, y, z, 1.0);
  }

  /** Multiplying by the conjugate of a unit quaternion is undone by multiplying with it. */
  lemma ConjugateCancels(p: Quat, q: Quat)
    requires Unit(q)
    ensures Multiply(Multiply(p, Conjugate(q)), q) == p
  {
    hide Inner4, ProductW, ProductX, ProductY, ProductZ;
    var r := Multiply(p, Conjugate(q));
    ProductConjugate(p.w, p.x, p.y, p.z, q.w, q.x, q.y, q.z, r.w, r.x, r.y, r.z);
  }

  lemma NegateProduct(a: real, b: real, c: real, d: real, e: real, f: real, g: real, h: real)
    ensures ProductW(-a, -b, -c, -d, e, f, g, h) == -ProductW(a, b, c, d, e, f, g, h)
    ensures ProductX(-a, -b, -c, -d, e, f, g, h) == -ProductX(a, b, c, d, e, f, g, h)
    ensures ProductY(-a, -b, -c, -d, e, f, g, h) == -ProductY(a, b, c, d, e, f, g, h)
    ensures ProductZ(-a, -b, -c, -d, e, f, g, h) == -ProductZ(a, b, c, d, e, f, g, h)
  {}

  lemma NegateMultiply(p: Quat, q: Quat)
    ensures Multiply(Negate(p), q) == Negate(Multiply(p, q))
  {
    hide ProductW, ProductX, ProductY, ProductZ;
    NegateProduct(p.w, p.x, p.y, p.z, q.w, q.x, q.y, q.z);
  }

  lemma IdentityMultiply(q: Quat)
    ensures Multiply(Identity, q) == q && Unit(Identity)
  {}

  lemma AxisAngleUnit(m: MathLib, axis: Vec3, angle: real)
    requires m.SqrtLaw()
    ensures Unit(AxisAngle(m, axis, angle))
  {
    hide Unit, Normalize;
    IdentityMultiply(Identity);
    forall q
      ensures Unit(Normalize(m, q))
    {
      NormalizeUnit(m, q);
    }
  }

  lemma AxisAngleZero(m: MathLib, axis: Vec3)
    requires m.SqrtLaw() && m.CircleLaw()
    ensures AxisAngle(m, axis, 0.0) == Identity
  {
    hide Normalize, Unit, Scale, Norm;
    IdentityMultiply(Identity);
    UnitNormalize(m, Identity);
    var u := Scale(axis, 1.0 / if Norm(m, axis) <= COLLINEAR_EPS then 1.0 else Norm(m, axis));
    ZeroAxis(m, u);
  }

  lemma ZeroAxis(m: MathLib, u: Vec3)
    requires m.CircleLaw()
    ensures Quat(m.cos(0.5 * 0.0), m.sin(0.5 * 0.0) * u.x, m.sin(0.5 * 0.0) * u.y, m.sin(0.5 * 0.0) * u.z) == Identity
  {}

  lemma LeftoverFacts(m: MathLib, end: Quat, predicted: Quat)
    requires m.SqrtLaw() && Unit(end) && Unit(predicted)
    ensures var q := Leftover(m, end, predicted);
            Unit(q) && q.w >= 0.0 && (q == Multiply(end, Conjugate(predicted))
                || q == Negate(Multiply(end, Conjugate(predicted))))
  {
    hide Normalize, Multiply, Conjugate, Inner;
    ConjugateUnit(predicted);
    MultiplyUnit(end, Conjugate(predicted));
    UnitNormalize(m, Multiply(end, Conjugate(predicted)));
    NegateUnit(Multiply(end, Conjugate(predicted)));
  }

  lemma IdentityInner(q: Quat)
    ensures Inner(Identity, q) == q.w
  {}

  /** The orientation is a unit quaternion everywhere. */
  lemma OrientationUnit(m: MathLib, start: Quat, end: Quat, axis: Vec3, total: real, at: real)
    requires m.SqrtLaw()
    ensures Unit(Orientation(m, start, end, axis, total, at))
  {
    hide Unit, Normalize, Multiply, Slerp, AxisAngle, Leftover;
    forall q
      ensures Unit(Normalize(m, q))
    {
      NormalizeUnit(m, q);
    }
  }

  lemma OrientationAtStart(m: MathLib, startOrientation: Quat, endOrientation: Quat, axis: Vec3, total: real)
    requires m.SqrtLaw() && m.CircleLaw() && m.AcosLaw()
    ensures Orientation(m, startOrientation, endOrientation, axis, total, 0.0) == Normalize(m, startOrientation)
  {
    hide Normalize, Multiply, Slerp, AxisAngle, Leftover, Unit;
    var start, end := Normalize(m, startOrientation), Normalize(m, endOrientation);
    NormalizeUnit(m, startOrientation);
    ZeroTimes(total);
    AxisAngleZero(m, axis);
    IdentityMultiply(start);
    var left := Leftover(m, end, Multiply(AxisAngle(m, axis, total), start));
    SlerpEnds(m, Identity, left);
    IdentityMultiply(Identity);
    UnitNormalize(m, Identity);
    UnitNormalize(m, start);
  }

  lemma ZeroTimes(x: real)
    ensures 0.0 * x == 0.0 && 1.0 * x == x
  {}

  lemma OrientationAtEnd(m: MathLib, startOrientation: Quat, endOrientation: Quat, axis: Vec3, total: real)
    requires m.SqrtLaw() && m.CircleLaw() && m.AcosLaw()
    ensures SameRotation(Orientation(m, startOrientation, endOrientation, axis, total, 1.0),
            Normalize(m, endOrientation))
  {
    hide Normalize, Multiply, Slerp, AxisAngle, Leftover, Unit, Inner, Conjugate;
    var start, end := Normalize(m, startOrientation), Normalize(m, endOrientation);
    NormalizeUnit(m, startOrientation);
    NormalizeUnit(m, endOrientation);
    ZeroTimes(total);
    AxisAngleUnit(m, axis, total);
    var predicted := Multiply(AxisAngle(m, axis, total), start);
    MultiplyUnit(AxisAngle(m, axis, total), start);
    LeftoverFacts(m, end, predicted);
    var left := Leftover(m, end, predicted);
    SlerpEnds(m, Identity, left);
    IdentityMultiply(Identity);
    UnitNormalize(m, Identity);
    UnitNormalize(m, left);
    IdentityInner(left);
    ConjugateCancels(end, predicted);
    NegateMultiply(Multiply(end, Conjugate(predicted)), predicted);
    NegateUnit(end);
    NegateIsUnit(end);
    UnitNormalize(m, end);
    UnitNormalize(m, Negate(end));
  }

  lemma NegateIsUnit(q: Quat)
    requires Unit(q)
    ensures Unit(Negate(q))
  {
    NegateUnit(q);
  }

  /**
   * The orientation is always unit, starts at the start orientation and arrives at the end
   * orientation, up to the sign that leaves the rotation unchanged.
   */
  lemma OrientationEnds(m: MathLib, start: Quat, end: Quat, axis: Vec3, total: real, at: real)
    requires m.SqrtLaw() && m.CircleLaw() && m.AcosLaw()
    ensures Unit(Orientation(m, start, end, axis, total, at))
    ensures at <= 0.0 ==> Orientation(m, start, end, axis, total, at) == Normalize(m, start)
    ensures at >= 1.0 ==> SameRotation(Orientation(m, start, end, axis, total, at), Normalize(m, end))
  {
    hide Normalize, Multiply, Slerp, AxisAngle, Leftover, Unit;
    OrientationUnit(m, start, end, axis, total, at);
    OrientationAtStart(m, start, end, axis, total);
    OrientationAtEnd(m, start, end, axis, total);
  }
}
