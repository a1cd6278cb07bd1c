/** Quaternions and rotation matrices. */
module Quaternions {
  import opened RealMath

  /** Norms below this are treated as zero. */
  const MIN_NORM := 0.000000000000001

  datatype Quat = Quat(w: real, x: real, y: real, z: real)

  datatype Mat3 = Mat3(
    m00: real, m01: real, m02: real,
    m10: real, m11: real, m12: real,
    m20: real, m21: real, m22: real)

  const Identity := Quat(1.0, 0.0, 0.0, 0.0)

  function Inner4(a: real, b: real, c: real, d: real, e: real, f: real, g: real, h: real): real {
    a * e + b * f + c * g + d * h
  }

  function Inner(p: Quat, q: Quat): real {
    Inner4(p.w, p.x, p.y, p.z, q.w, q.x, q.y, q.z)
  }

  ghost predicate Unit(q: Quat) { Inner(q, q) == 1.0 }

  function Negate(q: Quat): Quat { Quat(-q.w, -q.x, -q.y, -q.z) }

  /** The two quaternions of one rotation. */
  ghost predicate SameRotation(p: Quat, q: Quat) { p == q || p == Negate(q) }

  function Length(m: MathLib, q: Quat): real { m.sqrt(Inner(q, q)) }

  function Normalize(m: MathLib, q: Quat): Quat {
    var n := Length(m, q);
    if n < MIN_NORM then Identity
    else Quat(q.w / n, q.x / n, q.y / n, q.z / n)
  }

  // Entries of the rotation matrix.

  function Diagonal(a: real, b: real): real { 1.0 - 2.0 * (a * a + b * b) }

  function SumEntry(a: real, b: real, c: real, d: real): real { 2.0 * (a * b + c * d) }

  function DifferenceEntry(a: real, b: real, c: real, d: real): real { 2.0 * (a * b - c * d) }

  function Rotation(q: Quat): Mat3 {
    Mat3(
      Diagonal(q.y, q.z), DifferenceEntry(q.x, q.y, q.z, q.w), SumEntry(q.x, q.z, q.y, q.w),
      SumEntry(q.x, q.y, q.z, q.w), Diagonal(q.x, q.z), DifferenceEntry(q.y, q.z, q.x, q.w),
      DifferenceEntry(q.x, q.z, q.y, q.w), SumEntry(q.y, q.z, q.x, q.w), Diagonal(q.x, q.y))
  }

  function QuatToRotm(m: MathLib, q: Quat): Mat3 {
    Rotation(Normalize(m, q))
  }

  // The four ways to read a quaternion off a matrix; `s` is four times the dominant component.

  function FromW(r: Mat3, s: real): Quat
    requires s != 0.0
  {
    Quat(0.25 * s, (r.m21 - r.m12) / s, (r.m02 - r.m20) / s, (r.m10 - r.m01) / s)
  }

  function FromX(r: Mat3, s: real): Quat
    requires s != 0.0
  {
    Quat((r.m21 - r.m12) / s, 0.25 * s, (r.m01 + r.m10) / s, (r.m02 + r.m20) / s)
  }

  function FromY(r: Mat3, s: real): Quat
    requires s != 0.0
  {
    Quat((r.m02 - r.m20) / s, (r.m01 + r.m10) / s, 0.25 * s, (r.m12 + r.m21) / s)
  }

  function FromZ(r: Mat3, s: real): Quat
    requires s != 0.0
  {
    Quat((r.m10 - r.m01) / s, (r.m02 + r.m20) / s, (r.m12 + r.m21) / s, 0.25 * s)
  }

  datatype Dominant = DominantW | DominantX | DominantY | DominantZ

  function Choose(r: Mat3): Dominant {
    if r.m00 + r.m11 + r.m22 > 0.0 then DominantW
    else if r.m00 > r.m11 && r.m00 > r.m22 then DominantX
    else if r.m11 > r.m22 then DominantY
    else DominantZ
  }

  /** What is under the square root of the chosen branch. */
  function Radicand(r: Mat3): real {
    match Choose(r)
    case DominantW => r.m00 + r.m11 + r.m22 + 1.0
    case DominantX => 1.0 + r.m00 - r.m11 - r.m22
    case DominantY => 1.0 + r.m11 - r.m00 - r.m22
    case DominantZ => 1.0 + r.m22 - r.m00 - r.m11
  }

  /** The divisor of the chosen branch. */
  function Divisor(m: MathLib, r: Mat3): real {
    m.sqrt(Radicand(r)) * 2.0
  }

  function RotmToQuat(m: MathLib, r: Mat3): Quat
    requires Divisor(m, r) != 0.0
  {
    var s := Divisor(m, r);
    Normalize(m,
      match Choose(r)
      case DominantW => FromW(r, s)
      case DominantX => FromX(r, s)
      case DominantY => FromY(r, s)
      case DominantZ => FromZ(r, s))
  }

  // ---- normalisation ----

  lemma InnerSelf(q: Quat)
    ensures Inner(q, q) >= 0.0
  {}

  lemma LengthOf(m: MathLib, q: Quat) returns (n: real)
    requires m.SqrtLaw()
    ensures n == Length(m, q) && n >= 0.0 && n * n == Inner(q, q)
  {
    InnerSelf(q);
    n := Length(m, q);
  }

  lemma QuotientSquares(w: real, x: real, y: real, z: real, n: real)
    requires n > 0.0 && n * n == w * w + x * x + y * y + z * z
    ensures (w / n) * (w / n) + (x / n) * (x / n) + (y / n) * (y / n) + (z / n) * (z / n) == 1.0
  {
    var a, b, c, d := w / n, x / n, y / n, z / n;
    DivideMultiply(w, n);
    DivideMultiply(x, n);
    DivideMultiply(y, n);
    DivideMultiply(z, n);
    FactorSquares(w, x, y, z, a, b, c, d, n);
    var nn := PositiveProduct(n, n);
    Cancel(nn, a * a + b * b + c * c + d * d, 1.0);
  }

  lemma FactorSquares(w: real, x: real, y: real, z: real, a: real, b: real, c: real, d: real, n: real)
    requires w == n * a && x == n * b && y == n * c && z == n * d
    ensures w * w + x * x + y * y + z * z == (n * n) * (a * a + b * b + c * c + d * d)
  {}

  lemma NormalizeUnit(m: MathLib, q: Quat)
    requires m.SqrtLaw()
    ensures Unit(Normalize(m, q))
  {
    var n := LengthOf(m, q);
    if n >= MIN_NORM {
      QuotientSquares(q.w, q.x, q.y, q.z, n);
    }
  }

  /** Normalising keeps the direction of every quaternion that is not too short; those that are give the identity. */
  lemma NormalizeDirection(m: MathLib, q: Quat)
    requires m.SqrtLaw()
    ensures var r, n := Normalize(m, q), m.sqrt(Inner(q, q));
            if Inner(q, q) < 0.000000000000001 * 0.000000000000001 then r == Quat(1.0, 0.0, 0.0, 0.0)
            else n > 0.0 && n * n == Inner(q, q)
                 && q.w == n * r.w && q.x == n * r.x && q.y == n * r.y && q.z == n * r.z
  {
    var n := LengthOf(m, q);
    if n >= MIN_NORM {
      SquareMonotone(MIN_NORM, n);
    } else {
      SquareStrict(n, MIN_NORM);
    }
  }

  lemma UnitNormalize(m: MathLib, q: Quat)
    requires m.SqrtLaw() && Unit(q)
    ensures Normalize(m, q) == q
  {
    var n := LengthOf(m, q);
    SquareInjective(n, 1.0);
  }

  // ---- matrix round trip ----

  function Quadruple(a: real, b: real): real { 4.0 * a * b }

  lemma QuadrupleSymmetric(a: real, b: real)
    ensures Quadruple(a, b) == Quadruple(b, a)
  {}

  lemma EntryPair(a: real, b: real, c: real, d: real)
    ensures SumEntry(a, b, c, d) - DifferenceEntry(a, b, c, d) == Quadruple(c, d)
    ensures SumEntry(a, b, c, d) + DifferenceEntry(a, b, c, d) == Quadruple(a, b)
  {}

  lemma DiagonalSums(w: real, x: real, y: real, z: real)
    requires w * w + x * x + y * y + z * z == 1.0
    ensures Diagonal(y, z) + Diagonal(x, z) + Diagonal(x, y) + 1.0 == Quadruple(w, w)
    ensures 1.0 + Diagonal(y, z) - Diagonal(x, z) - Diagonal(x, y) == Quadruple(x, x)
    ensures 1.0 + Diagonal(x, z) - Diagonal(y, z) - Diagonal(x, y) == Quadruple(y, y)
    ensures 1.0 + Diagonal(x, y) - Diagonal(y, z) - Diagonal(x, z) == Quadruple(z, z)
  {}

  /** Sums and differences of matrix entries recover four times the component products. */
  lemma EntrySums(q: Quat)
    requires Unit(q)
    ensures var r := Rotation(q);
            && r.m21 - r.m12 == Quadruple(q.x, q.w) && r.m02 - r.m20 == Quadruple(q.y, q.w)
            && r.m10 - r.m01 == Quadruple(q.z, q.w)
            && r.m01 + r.m10 == Quadruple(q.x, q.y) && r.m02 + r.m20 == Quadruple(q.x, q.z)
            && r.m12 + r.m21 == Quadruple(q.y, q.z)
            && r.m00 + r.m11 + r.m22 + 1.0 == Quadruple(q.w, q.w) && 1.0 + r.m00 - r.m11 - r.m22 == Quadruple(q.x, q.x)
            && 1.0 + r.m11 - r.m00 - r.m22 == Quadruple(q.y, q.y) && 1.0 + r.m22 - r.m00 - r.m11 == Quadruple(q.z, q.z)
  {
    hide Diagonal, SumEntry, DifferenceEntry, Quadruple;
    EntryPair(q.y, q.z, q.x, q.w);
    EntryPair(q.x, q.z, q.y, q.w);
    EntryPair(q.x, q.y, q.z, q.w);
    DiagonalSums(q.w, q.x, q.y, q.z);
  }

  /** The component the chosen branch divides by. */
  function Component(d: Dominant, q: Quat): real {
    match d
    case DominantW => q.w
    case DominantX => q.x
    case DominantY => q.y
    case DominantZ => q.z
  }

  lemma RadicandIsSquare(q: Quat)
    requires Unit(q)
    ensures var a := Component(Choose(Rotation(q)), q); Radicand(Rotation(q)) == Quadruple(a, a)
  {
    hide Rotation, Quadruple;
    EntrySums(q);
  }

  /** The chosen component of a unit quaternion is never zero. */
  lemma DominantNonZero(q: Quat)
    requires Unit(q)
    ensures Component(Choose(Rotation(q)), q) != 0.0
  {
    hide Rotation, Quadruple;
    EntrySums(q);
    QuadrupleSquare(q.w);
    QuadrupleSquare(q.x);
    QuadrupleSquare(q.y);
    QuadrupleSquare(q.z);
  }

  lemma QuadrupleSquare(a: real)
    ensures Quadruple(a, a) >= 0.0 && (Quadruple(a, a) > 0.0 ==> a != 0.0)
  {}

  lemma FourTimes(m: MathLib, a: real, square: real)
    requires m.SqrtLaw() && a != 0.0 && square == Quadruple(a, a)
    ensures m.sqrt(square) * 2.0 == 4.0 * Abs(a)
  {
    SquareAbs(a);
    SquareInjective(m.sqrt(square), 2.0 * Abs(a));
  }

  lemma SquareAbs(a: real)
    ensures (2.0 * Abs(a)) * (2.0 * Abs(a)) == 4.0 * a * a && 4.0 * a * a >= 0.0
  {}

  lemma SignedQuotient(a: real, b: real, ab: real, s: real)
    requires a != 0.0 && s == 4.0 * Abs(a) && ab == 4.0 * a * b
    ensures ab / s == if a > 0.0 then b else -b
    ensures 0.25 * s == if a > 0.0 then a else -a
  {
    var c := if a > 0.0 then b else -b;
    assert s * c == ab by {
      if a > 0.0 {
        assert s * c == (4.0 * a) * b;
      } else {
        assert s * c == (-4.0 * a) * (-b);
      }
    }
    DivideMultiply(ab, s);
    Cancel(s, ab / s, c);
  }

  lemma DivisorNonZero(m: MathLib, q: Quat)
    requires m.SqrtLaw() && Unit(q)
    ensures var a := Component(Choose(Rotation(q)), q); Divisor(m, Rotation(q)) == 4.0 * Abs(a) && a != 0.0
  {
    hide Rotation, Choose, Radicand, Quadruple;
    DominantNonZero(q);
    RadicandIsSquare(q);
    FourTimes(m, Component(Choose(Rotation(q)), q), Radicand(Rotation(q)));
  }

  lemma UnitRoundTrip(m: MathLib, q: Quat)
    requires m.SqrtLaw() && Unit(q)
    ensures Divisor(m, Rotation(q)) != 0.0
    ensures SameRotation(RotmToQuat(m, Rotation(q)), q)
  {
    hide Rotation, Choose, Divisor, Normalize;
    EntrySums(q);
    DivisorNonZero(m, q);
    var r := Rotation(q);
    ReadOff(q, r, Choose(r), Divisor(m, r));
    UnitNormalize(m, q);
    NegateUnit(q);
    UnitNormalize(m, Negate(q));
  }

  /** Before normalisation each branch already yields the quaternion up to sign. */
  lemma ReadOff(q: Quat, r: Mat3, d: Dominant, s: real)
    requires var a := Component(d, q); a != 0.0 && s == 4.0 * Abs(a)
    requires r.m21 - r.m12 == Quadruple(q.x, q.w) && r.m02 - r.m20 == Quadruple(q.y, q.w)
             && r.m10 - r.m01 == Quadruple(q.z, q.w)
    requires r.m01 + r.m10 == Quadruple(q.x, q.y) && r.m02 + r.m20 == Quadruple(q.x, q.z)
             && r.m12 + r.m21 == Quadruple(q.y, q.z)
    ensures d == DominantW ==> SameRotation(FromW(r, s), q)
    ensures d == DominantX ==> SameRotation(FromX(r, s), q)
    ensures d == DominantY ==> SameRotation(FromY(r, s), q)
    ensures d == DominantZ ==> SameRotation(FromZ(r, s), q)
  {
    hide Quadruple;
    QuadrupleSymmetric(q.w, q.x);
    QuadrupleSymmetric(q.w, q.y);
    QuadrupleSymmetric(q.w, q.z);
    QuadrupleSymmetric(q.x, q.y);
    QuadrupleSymmetric(q.x, q.z);
    QuadrupleSymmetric(q.y, q.z);
    match d
    case DominantW => ReadComponents(q.w, q.x, q.y, q.z, r.m21 - r.m12, r.m02 - r.m20, r.m10 - r.m01, s);
    case DominantX => ReadComponents(q.x, q.w, q.y, q.z, r.m21 - r.m12, r.m01 + r.m10, r.m02 + r.m20, s);
    case DominantY => ReadComponents(q.y, q.w, q.x, q.z, r.m02 - r.m20, r.m01 + r.m10, r.m12 + r.m21, s);
    case DominantZ => ReadComponents(q.z, q.w, q.x, q.y, r.m10 - r.m01, r.m02 + r.m20, r.m12 + r.m21, s);
  }

  lemma ReadComponents(a: real, b: real, c: real, d: real, ab: real, ac: real, ad: real, s: real)
    requires a != 0.0 && s == 4.0 * Abs(a) && ab == Quadruple(a, b) && ac == Quadruple(a, c) && ad == Quadruple(a, d)
    ensures 0.25 * s == (if a > 0.0 then a else -a)
    ensures ab / s == (if a > 0.0 then b else -b) && ac / s == (if a > 0.0 then c else -c)
            && ad / s == (if a > 0.0 then d else -d)
  {
    SignedQuotient(a, b, ab, s);
    SignedQuotient(a, c, ac, s);
    SignedQuotient(a, d, ad, s);
  }

  lemma NegateUnit(q: Quat)
    ensures Inner(Negate(q), Negate(q)) == Inner(q, q)
  {}

  /** Converting any quaternion to a matrix and back gives its normalised form up to sign. */
  lemma RoundTrip(m: MathLib, q: Quat)
    requires m.SqrtLaw()
    ensures Divisor(m, QuatToRotm(m, q)) != 0.0
    ensures SameRotation(RotmToQuat(m, QuatToRotm(m, q)), Normalize(m, q))
  {
    NormalizeUnit(m, q);
    UnitRoundTrip(m, Normalize(m, q));
  }

  // ---- spherical interpolation ----

  /** Blending weights of two orthonormal quaternions on the arc between them. */
  function Arc(m: MathLib, p: Quat, r: Quat, theta: real): Quat {
    var c, s := m.cos(theta), m.sin(theta);
    Quat(Weigh(p.w, r.w, c, s), Weigh(p.x, r.x, c, s), Weigh(p.y, r.y, c, s), Weigh(p.z, r.z, c, s))
  }

  function Weigh(p: real, r: real, c: real, s: real): real { p * c + r * s }

  /** The part of `q` orthogonal to the unit quaternion `p`. */
  function Orthogonal(p: Quat, q: Quat, dot: real): Quat {
    Quat(Remove(q.w, p.w, dot), Remove(q.x, p.x, dot), Remove(q.y, p.y, dot), Remove(q.z, p.z, dot))
  }

  function Remove(q: real, p: real, dot: real): real { q - p * dot }

  function Straight(p: Quat, q: Quat, s: real): Quat {
    Quat(p.w + s * (q.w - p.w), p.x + s * (q.x - p.x), p.y + s * (q.y - p.y), p.z + s * (q.z - p.z))
  }

  function ClampReal(x: real, lo: real, hi: real): real {
    if x < lo then lo else if x > hi then hi else x
  }

  const PARALLEL := 0.9995

  function Share(angle: real, s: real): real { angle * s }

  /** Interpolation between unit quaternions already on the same half sphere. */
  function SlerpUnit(m: MathLib, p: Quat, q: Quat, dot: real, s: real): Quat {
    if dot > PARALLEL then
      Normalize(m, Straight(p, q, s))
    else
      Normalize(m, Arc(m, p, Normalize(m, Orthogonal(p, q, dot)), Share(m.acos(dot), s)))
  }

  function Slerp(m: MathLib, q0: Quat, q1: Quat, s: real): Quat {
    var p, q := Normalize(m, q0), Normalize(m, q1);
    var dot := Inner(p, q);
    if dot < 0.0 then SlerpUnit(m, p, Negate(q), ClampReal(-dot, -1.0, 1.0), s)
    else SlerpUnit(m, p, q, ClampReal(dot, -1.0, 1.0), s)
  }

  lemma SlerpIsUnit(m: MathLib, q0: Quat, q1: Quat, s: real)
    requires m.SqrtLaw()
    ensures Unit(Slerp(m, q0, q1, s))
  {
    hide Unit, SlerpUnit, Inner, Normalize;
    var p, q := Normalize(m, q0), Normalize(m, q1);
    var dot := Inner(p, q);
    SlerpUnitIsUnit(m, p, Negate(q), ClampReal(-dot, -1.0, 1.0), s);
    SlerpUnitIsUnit(m, p, q, ClampReal(dot, -1.0, 1.0), s);
  }

  lemma SlerpUnitIsUnit(m: MathLib, p: Quat, q: Quat, dot: real, s: real)
    requires m.SqrtLaw()
    ensures Unit(SlerpUnit(m, p, q, dot, s))
  {
    hide Unit, Arc, Straight, Orthogonal, Normalize;
    forall r
      ensures Unit(Normalize(m, r))
    {
      NormalizeUnit(m, r);
    }
  }

  lemma StraightEnds(p: Quat, q: Quat)
    ensures Straight(p, q, 0.0) == p && Straight(p, q, 1.0) == q
  {}

  lemma WeighStart(p: real, r: real)
    ensures Weigh(p, r, 1.0, 0.0) == p
  {}

  lemma ArcStart(m: MathLib, p: Quat, r: Quat)
    requires m.CircleLaw()
    ensures Arc(m, p, r, 0.0) == p
  {
    hide Weigh;
    WeighStart(p.w, r.w);
    WeighStart(p.x, r.x);
    WeighStart(p.y, r.y);
    WeighStart(p.z, r.z);
  }

  lemma OrthogonalLength(p: Quat, q: Quat, dot: real)
    requires Unit(p) && Unit(q) && dot == Inner(p, q)
    ensures Inner(Orthogonal(p, q, dot), Orthogonal(p, q, dot)) == 1.0 - dot * dot
  {
    hide Inner4, Remove;
    RemovedLength(p.w, p.x, p.y, p.z, q.w, q.x, q.y, q.z, dot);
  }

  lemma RemovedLength(a: real, b: real, c: real, e: real, u: real, v: real, w: real, x: real, d: real)
    requires Inner4(a, b, c, e, a, b, c, e) == 1.0 && Inner4(u, v, w, x, u, v, w, x) == 1.0
    requires d == Inner4(a, b, c, e, u, v, w, x)
    ensures var (f, g, h, k) := (Remove(u, a, d), Remove(v, b, d), Remove(w, c, d), Remove(x, e, d));
            Inner4(f, g, h, k, f, g, h, k) == 1.0 - d * d
  {
    ExpandRemoved(a, b, c, e, u, v, w, x, d);
    assert d * Inner4(a, b, c, e, u, v, w, x) == d * d;
    assert (d * d) * Inner4(a, b, c, e, a, b, c, e) == d * d;
  }

  lemma ExpandRemoved(a: real, b: real, c: real, e: real, u: real, v: real, w: real, x: real, d: real)
    ensures var (f, g, h, k) := (Remove(u, a, d), Remove(v, b, d), Remove(w, c, d), Remove(x, e, d));
            Inner4(f, g, h, k, f, g, h, k) ==
              Inner4(u, v, w, x, u, v, w, x) - 2.0 * (d * Inner4(a, b, c, e, u, v, w, x))
                  + (d * d) * Inner4(a, b, c, e, a, b, c, e)
  {}

  /** On the arc branch the angle reaches the second quaternion exactly. */
  lemma ArcEnd(m: MathLib, p: Quat, q: Quat, dot: real)
    requires m.SqrtLaw() && m.CircleLaw() && m.AcosLaw()
    requires Unit(p) && Unit(q) && dot == Inner(p, q) && 0.0 <= dot <= PARALLEL
    ensures Arc(m, p, Normalize(m, Orthogonal(p, q, dot)), m.acos(dot)) == q
  {
    hide Inner;
    var o := Orthogonal(p, q, dot);
    OrthogonalLength(p, q, dot);
    var n := LengthOf(m, o);
    var sine := SineOfAcos(m, dot);
    SquareInjective(n, sine);
    LongEnough(n, dot);
    hide Remove, Weigh;
    ArcCoordinate(p.w, q.w, dot, n);
    ArcCoordinate(p.x, q.x, dot, n);
    ArcCoordinate(p.y, q.y, dot, n);
    ArcCoordinate(p.z, q.z, dot, n);
  }

  lemma CircleOf(m: MathLib, a: real) returns (s: real, c: real)
    requires m.CircleLaw()
    ensures s == m.sin(a) && c == m.cos(a) && s * s + c * c == 1.0
  {
    s, c := m.sin(a), m.cos(a);
  }

  lemma SineOfAcos(m: MathLib, d: real) returns (s: real)
    requires m.CircleLaw() && m.AcosLaw() && -1.0 <= d <= 1.0
    ensures s == m.sin(m.acos(d)) && s >= 0.0 && s * s == 1.0 - d * d && m.cos(m.acos(d)) == d
  {
    var c;
    s, c := CircleOf(m, m.acos(d));
    assert c == d;
  }

  lemma LongEnough(n: real, dot: real)
    requires n >= 0.0 && n * n == 1.0 - dot * dot && 0.0 <= dot <= PARALLEL
    ensures n >= MIN_NORM
  {
    SquareMonotone(dot, PARALLEL);
    SquareMonotone(MIN_NORM, n);
  }

  lemma ArcCoordinate(p: real, q: real, dot: real, n: real)
    requires n > 0.0
    ensures Weigh(p, Remove(q, p, dot) / n, dot, n) == q
  {
    DivideMultiply(Remove(q, p, dot), n);
  }

  /** Interpolation starts exactly at the first orientation and ends exactly at the second, up to sign. */
  lemma SlerpEnds(m: MathLib, q0: Quat, q1: Quat)
    requires m.SqrtLaw() && m.CircleLaw() && m.AcosLaw()
    ensures Slerp(m, q0, q1, 0.0) == Normalize(m, q0)
    ensures SameRotation(Slerp(m, q0, q1, 1.0), Normalize(m, q1))
    ensures Inner(Normalize(m, q0), Normalize(m, q1)) >= 0.0 ==> Slerp(m, q0, q1, 1.0) == Normalize(m, q1)
  {
    hide Normalize, Inner, SlerpUnit;
    var p, q := Normalize(m, q0), Normalize(m, q1);
    NormalizeUnit(m, q0);
    NormalizeUnit(m, q1);
    NegateUnit(q);
    InnerNegate(p, q);
    InnerBound(p, q);
    if Inner(p, q) < 0.0 {
      SlerpUnitEnds(m, p, Negate(q));
    } else {
      SlerpUnitEnds(m, p, q);
    }
  }

  lemma InnerNegate(p: Quat, q: Quat)
    ensures Inner(p, Negate(q)) == -Inner(p, q)
  {}

  lemma InnerBound(p: Quat, q: Quat)
    requires Unit(p) && Unit(q)
    ensures -1.0 <= Inner(p, q) <= 1.0
  {
    OrthogonalLength(p, q, Inner(p, q));
    InnerSelf(Orthogonal(p, q, Inner(p, q)));
    UnitSquare(Inner(p, q));
  }

  lemma UnitSquare(d: real)
    requires 1.0 - d * d >= 0.0
    ensures -1.0 <= d <= 1.0
  {
    if d > 1.0 {
      SquareStrict(1.0, d);
    } else if d < -1.0 {
      SquareStrict(1.0, -d);
    }
  }

  lemma SlerpUnitEnds(m: MathLib, p: Quat, q: Quat)
    requires m.SqrtLaw() && m.CircleLaw() && m.AcosLaw()
    requires Unit(p) && Unit(q) && 0.0 <= Inner(p, q) <= 1.0
    ensures SlerpUnit(m, p, q, Inner(p, q), 0.0) == p
    ensures SlerpUnit(m, p, q, Inner(p, q), 1.0) == q
  {
    hide Normalize, Inner, Arc, Straight, Orthogonal;
    var dot := Inner(p, q);
    UnitNormalize(m, p);
    UnitNormalize(m, q);
    StraightEnds(p, q);
    ArcStart(m, p, Normalize(m, Orthogonal(p, q, dot)));
    if dot <= PARALLEL {
      ArcEnd(m, p, q, dot);
    }
  }
}
