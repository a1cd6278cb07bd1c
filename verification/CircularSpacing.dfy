/** The waypoints of an arc divide it evenly. */
module CircularSpacing {
  import opened RealMath
  import opened Vectors
  import opened CircularPath
  import opened CircularWaypoints

  lemma ChordBetween(c: Circle, co: real, si: real, co1: real, si1: real)
    ensures Sub(At(c, co1, si1), At(c, co, si)) == Scale(Spoke(c, co1 - co, si1 - si), c.radius)
  {
    BetweenCoordinate(c.center.x, c.e1.x, c.e2.x, co, si, co1, si1, c.radius);
    BetweenCoordinate(c.center.y, c.e1.y, c.e2.y, co, si, co1, si1, c.radius);
    BetweenCoordinate(c.center.z, c.e1.z, c.e2.z, co, si, co1, si1, c.radius);
  }

  lemma BetweenCoordinate(center: real, a: real, b: real, co: real, si: real, co1: real, si1: real, r: real)
    ensures (center + (a * co1 + b * si1) * r) - (center + (a * co + b * si) * r)
         == (a * (co1 - co) + b * (si1 - si)) * r
  {}

  lemma SquaredChord(co: real, si: real, co1: real, si1: real, between: real)
    requires co * co + si * si == 1.0 && co1 * co1 + si1 * si1 == 1.0 && between == co1 * co + si1 * si
    ensures (co1 - co) * (co1 - co) + (si1 - si) * (si1 - si) == 2.0 - 2.0 * between
  {}

  /** The squared distance of two samples depends on the angle between them alone. */
  lemma SampleDistance(m: MathLib, c: Circle, a: real, b: real)
    requires m.CircleLaw() && m.CosineDifferenceLaw() && Frame(c)
    ensures var w := Sub(Sample(m, c, b), Sample(m, c, a));
            Dot(w, w) == c.radius * c.radius * (2.0 - 2.0 * m.cos(b - a))
  {
    hide Dot, Cross, Spoke, At, Scale, Sub, Frame;
    var si, co := SineCosine(m, a);
    var si1, co1 := SineCosine(m, b);
    var v, r := Spoke(c, co1 - co, si1 - si), c.radius;
    ChordBetween(c, co, si, co1, si1);
    DotScaled(v, Scale(v, r), r);
    DotSymmetric(v, Scale(v, r));
    DotScaled(v, v, r);
    SpokeLength(c, co1 - co, si1 - si);
    SquaredChord(co, si, co1, si1, m.cos(b - a));
    ScaledTwice(r, Dot(v, v), Dot(Scale(v, r), Scale(v, r)));
  }

  lemma AngleStep(total: real, i: nat, n: nat)
    requires i + 1 < n
    ensures AngleAt(total, i + 1, n) - AngleAt(total, i, n) == total * (1.0 / (n - 1) as real)
  {
    var d := (n - 1) as real;
    DivideMultiply(i as real, d);
    DivideMultiply((i + 1) as real, d);
    DivideMultiply(1.0, d);
    Cancel(d, Fraction(i + 1, n), Fraction(i, n) + 1.0 / d);
    SplitShare(total, Fraction(i, n), 1.0 / d);
  }

  lemma SplitShare(total: real, x: real, y: real)
    ensures total * (x + y) == total * x + total * y
  {}

  /** All neighbouring waypoints are equally far apart: the chord of the sweep divided evenly. */
  lemma EvenlySpaced(m: MathLib, c: Circle, total: real, n: nat, waypoints: seq<Vec3>, i: nat)
    requires m.CircleLaw() && m.CosineDifferenceLaw() && Frame(c) && i + 1 < n && Sampled(m, c, total, n, waypoints)
    ensures var w := Sub(waypoints[i + 1], waypoints[i]);
            Dot(w, w) == c.radius * c.radius * (2.0 - 2.0 * m.cos(total * (1.0 / (n - 1) as real)))
  {
    hide Dot, Frame, Sample, AngleAt, Sub;
    SampleDistance(m, c, AngleAt(total, i, n), AngleAt(total, i + 1, n));
    AngleStep(total, i, n);
  }
}
