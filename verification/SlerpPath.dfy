/** What spherical interpolation does between its two ends. */
module SlerpPath {
  import opened RealMath
  import opened Quaternions

  /** Of the two quaternions of the rotation `q`, the one on the half sphere of `p`. */
  function Nearer(p: Quat, q: Quat): Quat {
    if Inner(p, q) < 0.0 then Negate(q) else q
  }

  lemma NearerInner(p: Quat, q: Quat)
    requires Unit(p) && Unit(q)
    ensures Unit(Nearer(p, q)) && 0.0 <= Inner(p, Nearer(p, q)) <= 1.0
  {
    hide Inner, Negate;
    NegateUnit(q);
    InnerNegate(p, q);
    InnerBound(p, Nearer(p, q));
  }

  /** The sign choice leaves one case, and clamping the inner product changes nothing. */
  lemma SlerpIs(m: MathLib, q0: Quat, q1: Quat, s: real)
    requires m.SqrtLaw()
    ensures var p := Normalize(m, q0); var q := Nearer(p, Normalize(m, q1));
            Slerp(m, q0, q1, s) == SlerpUnit(m, p, q, Inner(p, q), s)
  {
    hide Inner, Negate, Unit, SlerpUnit, Normalize;
    NormalizeUnit(m, q0);
    NormalizeUnit(m, q1);
    NearerInner(Normalize(m, q0), Normalize(m, q1));
    InnerNegate(Normalize(m, q0), Normalize(m, q1));
  }

  // ---- on the arc ----

  lemma WeighPair(a: real, e: real, x: real, y: real, u: real, v: real)
    ensures Weigh(a, e, x, y) * Weigh(a, e, u, v) == (x * u) * (a * a) + (x * v + y * u) * (a * e) + (y * v) * (e * e)
  {}

  lemma SumThree(k: real, l: real, n: real, a: real, b: real, c: real, d: real, e: real, f: real, g: real, h: real)
    ensures k * Inner4(a, b, c, d, a, b, c, d) + l * Inner4(a, b, c, d, e, f, g, h)
              + n * Inner4(e, f, g, h, e, f, g, h)
         == (k * (a * a) + l * (a * e) + n * (e * e)) + (k * (b * b) + l * (b * f) + n * (f * f))
            + (k * (c * c) + l * (c * g) + n * (g * g)) + (k * (d * d) + l * (d * h) + n * (h * h))
  {}

  lemma WeighedInner(a: real, b: real, c: real, d: real, e: real, f: real, g: real, h: real,
      x: real, y: real, u: real, v: real)
    ensures Inner4(Weigh(a, e, x, y), Weigh(b, f, x, y), Weigh(c, g, x, y), Weigh(d, h, x, y),
                   Weigh(a, e, u, v), Weigh(b, f, u, v), Weigh(c, g, u, v), Weigh(d, h, u, v))
         == (x * u) * Inner4(a, b, c, d, a, b, c, d) + (x * v + y * u) * Inner4(a, b, c, d, e, f, g, h)
            + (y * v) * Inner4(e, f, g, h, e, f, g, h)
  {
    hide Weigh;
    WeighPair(a, e, x, y, u, v);
    WeighPair(b, f, x, y, u, v);
    WeighPair(c, g, x, y, u, v);
    WeighPair(d, h, x, y, u, v);
    SumThree(x * u, x * v + y * u, y * v, a, b, c, d, e, f, g, h);
  }

  lemma ArcInner(m: MathLib, p: Quat, r: Quat, a: real, b: real)
    requires Unit(p) && Unit(r) && Inner(p, r) == 0.0
    ensures Inner(Arc(m, p, r, a), Arc(m, p, r, b)) == m.cos(a) * m.cos(b) + m.sin(a) * m.sin(b)
  {
    hide Inner4, Weigh;
    WeighedInner(p.w, p.x, p.y, p.z, r.w, r.x, r.y, r.z, m.cos(a), m.sin(a), m.cos(b), m.sin(b));
  }

  lemma ArcUnit(m: MathLib, p: Quat, r: Quat, a: real)
    requires m.CircleLaw() && Unit(p) && Unit(r) && Inner(p, r) == 0.0
    ensures Unit(Arc(m, p, r, a))
  {
    hide Inner, Arc;
    ArcInner(m, p, r, a, a);
    var s, c := CircleOf(m, a);
  }

  lemma RemovedInner(a: real, b: real, c: real, e: real, u: real, v: real, w: real, x: real, d: real)
    ensures Inner4(a, b, c, e, Remove(u, a, d), Remove(v, b, d), Remove(w, c, d), Remove(x, e, d))
         == Inner4(a, b, c, e, u, v, w, x) - d * Inner4(a, b, c, e, a, b, c, e)
  {}

  lemma InnerQuotient(p: Quat, o: Quat, n: real)
    requires n > 0.0 && Inner(p, o) == 0.0
    ensures Inner(p, Quat(o.w / n, o.x / n, o.y / n, o.z / n)) == 0.0
  {
    var a, b, c, d := o.w / n, o.x / n, o.y / n, o.z / n;
    DivideMultiply(o.w, n);
    DivideMultiply(o.x, n);
    DivideMultiply(o.y, n);
    DivideMultiply(o.z, n);
    FactorInner(p.w, p.x, p.y, p.z, a, b, c, d, n);
    Cancel(n, Inner4(p.w, p.x, p.y, p.z, a, b, c, d), 0.0);
  }

  lemma FactorInner(p: real, q: real, r: real, s: real, a: real, b: real, c: real, d: real, n: real)
    ensures Inner4(p, q, r, s, n * a, n * b, n * c, n * d) == n * Inner4(p, q, r, s, a, b, c, d)
  {}

  /** The direction of the arc: a unit quaternion orthogonal to its start. */
  lemma Direction(m: MathLib, p: Quat, q: Quat, dot: real)
    requires m.SqrtLaw() && Unit(p) && Unit(q) && dot == Inner(p, q) && 0.0 <= dot <= PARALLEL
    ensures var r := Normalize(m, Orthogonal(p, q, dot)); Unit(r) && Inner(p, r) == 0.0
  {
    var o := Orthogonal(p, q, dot);
    NormalizeUnit(m, o);
    OrthogonalLength(p, q, dot);
    var n := LengthOf(m, o);
    LongEnough(n, dot);
    assert Inner(p, o) == 0.0 by {
      hide Inner4, Remove;
      RemovedInner(p.w, p.x, p.y, p.z, q.w, q.x, q.y, q.z, dot);
    }
    hide Inner, Orthogonal;
    InnerQuotient(p, o, n);
  }

  /** On the arc branch the interpolation is the arc itself. */
  lemma SlerpOnArc(m: MathLib, p: Quat, q: Quat, r: Quat, dot: real, s: real)
    requires m.SqrtLaw() && m.CircleLaw() && dot <= PARALLEL && r == Normalize(m, Orthogonal(p, q, dot))
    requires Unit(p) && Unit(r) && Inner(p, r) == 0.0
    ensures SlerpUnit(m, p, q, dot, s) == Arc(m, p, r, Share(m.acos(dot), s))
  {
    hide Inner, Normalize, Orthogonal, Arc, Unit, Share;
    ArcUnit(m, p, r, Share(m.acos(dot), s));
    UnitNormalize(m, Arc(m, p, r, Share(m.acos(dot), s)));
  }

  lemma ArcSpeed(m: MathLib, p: Quat, q: Quat, r: Quat, dot: real, s: real, t: real)
    requires m.SqrtLaw() && m.CircleLaw() && m.CosineDifferenceLaw() && dot <= PARALLEL
    requires Unit(p) && Unit(r) && Inner(p, r) == 0.0 && r == Normalize(m, Orthogonal(p, q, dot))
    ensures Inner(SlerpUnit(m, p, q, dot, s), SlerpUnit(m, p, q, dot, t)) == m.cos(Share(m.acos(dot), t - s))
  {
    hide Inner, Normalize, Orthogonal, Arc, SlerpUnit, Unit, Share, MathLib.SqrtLaw, MathLib.CircleLaw,
         MathLib.CosineDifferenceLaw;
    var theta := m.acos(dot);
    SlerpOnArc(m, p, q, r, dot, s);
    SlerpOnArc(m, p, q, r, dot, t);
    ArcInner(m, p, r, Share(theta, s), Share(theta, t));
    ShareDifference(theta, s, t);
    AngleBetween(m, Share(theta, t), Share(theta, s), Share(theta, t - s));
  }

  lemma ShareDifference(theta: real, s: real, t: real)
    ensures Share(theta, t - s) == Share(theta, t) - Share(theta, s)
  {}

  lemma AngleBetween(m: MathLib, a: real, b: real, d: real)
    requires m.CosineDifferenceLaw() && d == a - b
    ensures m.cos(d) == m.cos(b) * m.cos(a) + m.sin(b) * m.sin(a)
  {}

  // ---- nearly parallel ----

  function Blend(p: real, q: real, s: real): real { Weigh(p, q, 1.0 - s, s) }

  /** A positive multiple of the straight blend. */
  ghost predicate OnChord(x: Quat, p: Quat, q: Quat, s: real, f: real) {
    && f > 0.0 && f * x.w == Blend(p.w, q.w, s) && f * x.x == Blend(p.x, q.x, s)
    && f * x.y == Blend(p.y, q.y, s) && f * x.z == Blend(p.z, q.z, s)
  }

  lemma StraightBlend(p: Quat, q: Quat, s: real)
    ensures Straight(p, q, s) == Quat(Blend(p.w, q.w, s), Blend(p.x, q.x, s), Blend(p.y, q.y, s), Blend(p.z, q.z, s))
  {}

  lemma ChordLength(s: real, dot: real, length: real)
    requires PARALLEL < dot <= 1.0
    requires length == ((1.0 - s) * (1.0 - s)) * 1.0 + ((1.0 - s) * s + s * (1.0 - s)) * dot + (s * s) * 1.0
    ensures length > 0.25
  {
    var x, gap := (1.0 - s) * s, 1.0 - dot;
    assert x == 0.25 - (s - 0.5) * (s - 0.5);
    assert length == 1.0 - 2.0 * (x * gap);
    assert x * gap <= 0.25 * gap by {
      ScaleLe(gap, x, 0.25);
    }
  }

  lemma ChordLonger(p: Quat, q: Quat, s: real, length: real)
    requires Unit(p) && Unit(q) && PARALLEL < Inner(p, q) <= 1.0
    requires length == Inner(Straight(p, q, s), Straight(p, q, s))
    ensures length > 0.25
  {
    StraightBlend(p, q, s);
    hide Inner4, Weigh, Straight;
    WeighedInner(p.w, p.x, p.y, p.z, q.w, q.x, q.y, q.z, 1.0 - s, s, 1.0 - s, s);
    ChordLength(s, Inner(p, q), length);
  }

  lemma HalfLength(n: real)
    requires n >= 0.0 && n * n > 0.25
    ensures n > MIN_NORM
  {
    SquareMonotone(n, 0.5);
  }

  lemma StraightIsLong(m: MathLib, p: Quat, q: Quat, s: real) returns (n: real)
    requires m.SqrtLaw() && Unit(p) && Unit(q) && PARALLEL < Inner(p, q) <= 1.0
    ensures n == Length(m, Straight(p, q, s)) && n > MIN_NORM
  {
    n := LengthOf(m, Straight(p, q, s));
    ChordLonger(p, q, s, n * n);
    HalfLength(n);
  }

  lemma ChordPoint(m: MathLib, p: Quat, q: Quat, s: real) returns (f: real)
    requires m.SqrtLaw() && Unit(p) && Unit(q) && PARALLEL < Inner(p, q) <= 1.0
    ensures OnChord(SlerpUnit(m, p, q, Inner(p, q), s), p, q, s, f)
  {
    f := StraightIsLong(m, p, q, s);
    StraightBlend(p, q, s);
    hide Inner, Blend, Straight, Length;
    var x := Straight(p, q, s);
    DivideMultiply(x.w, f);
    DivideMultiply(x.x, f);
    DivideMultiply(x.y, f);
    DivideMultiply(x.z, f);
  }

  // ---- all inputs ----

  /**
   * Between orientations that are not nearly parallel the interpolation turns at constant speed: the angle
   * between two of its orientations is the share of the whole angle.
   */
  lemma SlerpSpeed(m: MathLib, q0: Quat, q1: Quat, s: real, t: real)
    requires m.SqrtLaw() && m.CircleLaw() && m.CosineDifferenceLaw()
    ensures var p := Normalize(m, q0); var dot := Inner(p, Nearer(p, Normalize(m, q1)));
            0.0 <= dot <= 0.9995 ==>
              Inner(Slerp(m, q0, q1, s), Slerp(m, q0, q1, t)) == m.cos((t - s) * m.acos(dot))
  {
    hide Inner, Normalize, SlerpUnit, Slerp, Nearer, Unit;
    var p, q := Normalize(m, q0), Nearer(Normalize(m, q0), Normalize(m, q1));
    NormalizeUnit(m, q0);
    NormalizeUnit(m, q1);
    NearerInner(p, Normalize(m, q1));
    SlerpIs(m, q0, q1, s);
    SlerpIs(m, q0, q1, t);
    if Inner(p, q) <= PARALLEL {
      Direction(m, p, q, Inner(p, q));
      ArcSpeed(m, p, q, Normalize(m, Orthogonal(p, q, Inner(p, q))), Inner(p, q), s, t);
      assert Share(m.acos(Inner(p, q)), t - s) == (t - s) * m.acos(Inner(p, q));
    }
  }

  /** Between nearly parallel orientations it follows the chord: a positive multiple of the straight blend. */
  lemma SlerpChord(m: MathLib, q0: Quat, q1: Quat, s: real) returns (f: real)
    requires m.SqrtLaw()
    ensures var p := Normalize(m, q0); var q := Nearer(p, Normalize(m, q1));
            Inner(p, q) > 0.9995 ==> OnChord(Slerp(m, q0, q1, s), p, q, s, f)
  {
    hide Inner, Normalize, SlerpUnit, Slerp, Nearer, Unit, OnChord;
    var p, q := Normalize(m, q0), Nearer(Normalize(m, q0), Normalize(m, q1));
    NormalizeUnit(m, q0);
    NormalizeUnit(m, q1);
    NearerInner(p, Normalize(m, q1));
    SlerpIs(m, q0, q1, s);
    f := 0.0;
    if Inner(p, q) > PARALLEL {
      f := ChordPoint(m, p, q, s);
    }
  }
}
