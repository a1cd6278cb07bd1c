/** Where the position at an arc length lies on the polyline. */
module ArcLengthExact {
  import opened RealMath
  import opened Vectors
  import opened ArcLength
  import opened ArcLengthBound

  /** `x` lies `before` behind `a` and `after` in front of `b`. */
  ghost predicate Divides(m: MathLib, a: Vec3, b: Vec3, x: Vec3, before: real, after: real) {
    Distance(m, a, x) == before && Distance(m, x, b) == after
  }

  lemma BlendDivides(m: MathLib, path: seq<Vec3>, l: seq<real>, i: nat, q: real)
    requires m.SqrtLaw() && |path| == |l| && 1 <= i < |l| && l[i - 1] < l[i] && l[i - 1] <= q <= l[i]
    requires Distance(m, path[i - 1], path[i]) == l[i] - l[i - 1]
    ensures Divides(m, path[i - 1], path[i], Blend(path, l, i, q), q - l[i - 1], l[i] - q)
  {
    hide Lerp, Distance;
    var l0, l1 := l[i - 1], l[i];
    var u := (q - l0) / (l1 - l0);
    FractionRange(l0, l1, l0, q);
    FractionRange(l0, l1, q, l1);
    LerpEnds(path[i - 1], path[i]);
    LerpDistance(m, path[i - 1], path[i], 0.0, u);
    LerpDistance(m, path[i - 1], path[i], u, 1.0);
    Portions(u, l1 - l0, q - l0);
  }

  lemma Portions(u: real, d: real, x: real)
    requires u * d == x
    ensures (u - 0.0) * d == x && (1.0 - u) * d == d - x
  {}

  lemma CumulativeStep(m: MathLib, path: seq<Vec3>, i: nat)
    requires m.SqrtLaw() && 1 <= i < |path|
    ensures var l := CumulativeAll(m, path); l[i] - l[i - 1] == Distance(m, path[i - 1], path[i]) >= 0.0
    ensures CumulativeAll(m, path)[0] == 0.0
  {
    hide Distance;
    DistanceSymmetric(m, path[i - 1], path[i]);
  }

  /**
   * For every path and every arc length on it: the position is on the chord that this arc length has
   * reached, and divides it exactly; in a gap below 1e-15 it is a corner.
   */
  lemma AtArcLength(m: MathLib, path: seq<Vec3>, q: real) returns (i: nat)
    requires m.SqrtLaw() && |path| >= 2 && 0.0 <= q <= CumulativeAll(m, path)[|path| - 1]
    ensures var l := CumulativeAll(m, path); var x := Interpolated(path, l, q);
            && 1 <= i < |path| && l[i - 1] <= q <= l[i]
            && (l[i] - l[i - 1] >= 0.000000000000001 ==>
                  Divides(m, path[i - 1], path[i], x, q - l[i - 1], l[i] - q))
            && (l[i] - l[i - 1] < 0.000000000000001 ==> x == path[i - 1] || x == path[i])
  {
    hide Distance, Blend, Cumulative, CumulativeAll;
    var l, last := CumulativeAll(m, path), |path| - 1;
    CumulativeStep(m, path, 1);
    CumulativeStep(m, path, last);
    if q <= l[0] {
      i := 1;
      DistanceSymmetric(m, path[0], path[0]);
    } else if q >= l[last] {
      i := last;
      DistanceSymmetric(m, path[last], path[last]);
    } else {
      UpperStrict(l, q);
      i := Upper(l, q, 1);
      CumulativeStep(m, path, i);
      BlendDivides(m, path, l, i, q);
    }
  }
}
