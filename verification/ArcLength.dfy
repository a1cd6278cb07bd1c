module ArcLength {
  import opened RealMath
  import opened Vectors
  import opened SampleGrid

  /** A gap shorter than this is not divided by. */
  const MIN_GAP := 0.000000000000001

  // ---- interpolation over a polyline ----

  /** First index from `i` on whose arc length is not below the query. */
  function Upper(l: seq<real>, q: real, i: nat): (r: nat)
    requires i < |l| && q <= l[|l| - 1]
    ensures i <= r < |l| && q <= l[r]
    ensures i < r ==> l[r - 1] < q
    decreases |l| - i
  {
    if l[i] < q && i < |l| - 1 then Upper(l, q, i + 1) else i
  }

  function Blend(path: seq<Vec3>, l: seq<real>, i: nat, q: real): Vec3
    requires 1 <= i < |path| && |path| == |l| && l[i - 1] != l[i]
  {
    Lerp(path[i - 1], path[i], (q - l[i - 1]) / (l[i] - l[i - 1]))
  }

  function Interpolated(path: seq<Vec3>, l: seq<real>, q: real): Vec3
    requires |path| == |l|
  {
    if |path| == 0 then Zero3
    else if q <= l[0] then path[0]
    else if q >= l[|l| - 1] then path[|path| - 1]
    else
      var i := Upper(l, q, 1);
      if Abs(l[i] - l[i - 1]) < MIN_GAP then path[i - 1] else Blend(path, l, i, q)
  }

  method Interpolate(path: array<Vec3>, arcLength: array<real>, count: nat, query: real) returns (r: Vec3)
    requires count <= path.Length && count <= arcLength.Length
    ensures r == Interpolated(path[..count], arcLength[..count], query)
  {
    if count == 0 {
      return Zero3;
    }
    if query <= arcLength[0] {
      return path[0];
    }
    if query >= arcLength[count - 1] {
      return path[count - 1];
    }
    ghost var l := arcLength[..count];
    var upper := 1;
    while upper < count && arcLength[upper] < query
      invariant 1 <= upper < count
      invariant Upper(l, query, 1) == Upper(l, query, upper)
    {
      upper := upper + 1;
    }
    var lower := upper - 1;
    var denominator := arcLength[upper] - arcLength[lower];
    if Abs(denominator) < MIN_GAP {
      return path[lower];
    }
    return Lerp(path[lower], path[upper], (query - arcLength[lower]) / denominator);
  }

  // ---- parameterisation ----

  /** Accumulated chord length up to point `i`. */
  function Cumulative(m: MathLib, path: seq<Vec3>, i: nat): real
    requires i < |path|
  {
    if i == 0 then 0.0 else Cumulative(m, path, i - 1) + Distance(m, path[i - 1], path[i])
  }

  function CumulativeAll(m: MathLib, path: seq<Vec3>): (l: seq<real>)
    ensures |l| == |path|
  {
    seq(|path|, i requires 0 <= i < |path| => Cumulative(m, path, i))
  }

  function Knots(n: nat, total: real, spacing: real): (l: seq<real>)
    ensures |l| == n
  {
    seq(n, i requires 0 <= i < n => SampleTime(n, total, spacing, i))
  }

  function Resampled(path: seq<Vec3>, l: seq<real>, knots: seq<real>): (r: seq<Vec3>)
    requires |path| == |l|
    ensures |r| == |knots|
  {
    seq(|knots|, i requires 0 <= i < |knots| => Interpolated(path, l, knots[i]))
  }

  datatype ArcLengthInfo = ArcLengthInfo(count: nat, totalLength: real)

  /** What a successful parameterisation leaves in the output arrays. */
  ghost predicate Parameterized(m: MathLib, path: seq<Vec3>, spacing: real, info: ArcLengthInfo,
                                sOriginal: seq<real>, sNew: seq<real>, resampled: seq<Vec3>)
  {
    && |path| > 0
    && info.totalLength == Cumulative(m, path, |path| - 1)
    && IsSampleCount(info.count, info.totalLength, spacing)
    && sOriginal == CumulativeAll(m, path)
    && sNew == Knots(info.count, info.totalLength, spacing)
    && resampled == Resampled(path, sOriginal, sNew)
  }

  lemma {:induction false} CumulativeMonotone(m: MathLib, path: seq<Vec3>, i: nat, k: nat)
    requires m.SqrtLaw() && i <= k < |path|
    ensures 0.0 <= Cumulative(m, path, i) <= Cumulative(m, path, k)
  {
    if i < k {
      CumulativeMonotone(m, path, i, k - 1);
      NormSquare(m, Sub(path[k], path[k - 1]));
    } else if i > 0 {
      CumulativeMonotone(m, path, i - 1, i - 1);
      NormSquare(m, Sub(path[i], path[i - 1]));
    }
  }

  function Mark(n: nat, spacing: real): real { n as real * spacing }

  /** Regular knots, then the total length; refused when they do not fit. */
  method FillKnots(total: real, spacing: real, sNew: array<real>) returns (ok: bool, n: nat)
    requires total >= 0.0 && spacing > 0.0
    modifies sNew
    ensures ok <==> SampleCount(total, spacing) <= sNew.Length
    ensures ok ==> n == SampleCount(total, spacing) && sNew[..n] == Knots(n, total, spacing)
  {
    ghost var count := SampleCount(total, spacing);
    SampleCountIs(total, spacing);
    assert Mark(0, spacing) == 0.0;
    hide Mark, Knots, SampleCount, IsSampleCount;
    n := 0;
    var current := 0.0;
    while current <= total
      invariant n <= sNew.Length
      invariant current == Mark(n, spacing)
      invariant n > 0 ==> Mark(n - 1, spacing) <= total
      invariant forall i :: 0 <= i < n ==> sNew[i] == Mark(i, spacing)
      decreases sNew.Length - n
    {
      if n >= sNew.Length {
        KnotsLeft(count, n, total, spacing);
        return false, n;
      }
      sNew[n] := current;
      n := n + 1;
      current := Mark(n, spacing);
    }
    KnotsDone(count, n, total, spacing);
    if sNew[n - 1] < total {
      if n >= sNew.Length {
        return false, n;
      }
      sNew[n] := total;
      n := n + 1;
    }
    KnotsFilled(sNew[..n], n, total, spacing);
    ok := true;
  }

  lemma KnotsFilled(filled: seq<real>, n: nat, total: real, spacing: real)
    requires 0 < n == |filled| && filled[n - 1] == total && forall i :: 0 <= i < n - 1 ==> filled[i] == Mark(i, spacing)
    ensures filled == Knots(n, total, spacing)
  {
    forall i | 0 <= i < n
      ensures filled[i] == Knots(n, total, spacing)[i]
    {}
  }

  lemma MarkOrder(spacing: real, i: nat, k: nat)
    requires spacing > 0.0 && i <= k
    ensures Mark(i, spacing) <= Mark(k, spacing)
    ensures Mark(i + 1, spacing) == Mark(i, spacing) + spacing
  {
    RegularOrder(spacing, i, k);
  }

  lemma LastMark(count: nat, total: real, spacing: real)
    requires IsSampleCount(count, total, spacing)
    ensures count > 0 && total <= Mark(count - 1, spacing)
  {}

  lemma KnotsLeft(count: nat, n: nat, total: real, spacing: real)
    requires total >= 0.0 && spacing > 0.0 && IsSampleCount(count, total, spacing)
    requires Mark(n, spacing) <= total
    ensures n < count
  {
    hide Mark, IsSampleCount;
    LastMark(count, total, spacing);
    if count <= n {
      MarkOrder(spacing, count, n);
      MarkOrder(spacing, count - 1, count);
    }
  }

  lemma KnotsDone(count: nat, n: nat, total: real, spacing: real)
    requires total >= 0.0 && spacing > 0.0 && IsSampleCount(count, total, spacing)
    requires n > 0 && Mark(n - 1, spacing) <= total < Mark(n, spacing)
    ensures count == if Mark(n - 1, spacing) < total then n + 1 else n
  {
    if n >= 2 {
      RegularOrder(spacing, n - 2, n - 1);
    }
    SampleCountUnique(count, if Mark(n - 1, spacing) < total then n + 1 else n, total, spacing);
  }

  method FillCumulative(m: MathLib, points: array<Vec3>, count: nat, sOriginal: array<real>)
    requires 0 < count <= points.Length && count <= sOriginal.Length
    modifies sOriginal
    ensures sOriginal[..count] == CumulativeAll(m, points[..count])
  {
    ghost var path := points[..count];
    sOriginal[0] := 0.0;
    for i := 1 to count
      invariant forall k :: 0 <= k < i ==> sOriginal[k] == Cumulative(m, path, k)
    {
      var segmentLength := Distance(m, points[i - 1], points[i]);
      sOriginal[i] := sOriginal[i - 1] + segmentLength;
    }
  }

  method FillResampled(points: array<Vec3>, count: nat, sOriginal: array<real>, sNew: array<real>, n: nat,
      resampled: array<Vec3>)
    requires count <= points.Length && count <= sOriginal.Length && n <= sNew.Length && n <= resampled.Length
    requires points != resampled
    modifies resampled
    ensures resampled[..n] == Resampled(points[..count], sOriginal[..count], sNew[..n])
  {
    for i := 0 to n
      invariant points[..count] == old(points[..count])
      invariant forall k :: 0 <= k < i ==> resampled[k] == Interpolated(points[..count], sOriginal[..count], sNew[k])
    {
      resampled[i] := Interpolate(points, sOriginal, count, sNew[i]);
    }
  }

  method Parameterize(m: MathLib, points: array<Vec3>, count: nat, spacing: real,
                      resampled: array<Vec3>, sOriginal: array<real>, sNew: array<real>)
    returns (ok: bool, info: ArcLengthInfo)
    requires m.SqrtLaw() && count <= points.Length
    requires points != resampled && sOriginal != sNew && resampled.Length == sOriginal.Length == sNew.Length
    modifies resampled, sOriginal, sNew
    ensures ok <==> count > 0 && spacing > 0.0 && count <= sOriginal.Length
                    && Fits(m, points[..count], spacing, sNew.Length)
    ensures ok ==> info.count <= sNew.Length
    ensures ok ==> Parameterized(m, points[..count], spacing, info,
                                 sOriginal[..count], sNew[..info.count], resampled[..info.count])
  {
    info := ArcLengthInfo(0, 0.0);
    if count == 0 || spacing <= 0.0 || count > sOriginal.Length {
      return false, info;
    }
    FillCumulative(m, points, count, sOriginal);
    var totalLength := sOriginal[count - 1];
    assert totalLength == sOriginal[..count][count - 1];
    CumulativeMonotone(m, points[..count], 0, count - 1);
    var fits, newCount := FillKnots(totalLength, spacing, sNew);
    if !fits {
      return false, info;
    }
    SampleCountIs(totalLength, spacing);
    FillResampled(points, count, sOriginal, sNew, newCount, resampled);
    return true, ArcLengthInfo(newCount, totalLength);
  }

  /** The knots of this path fit into buffers of the given capacity. */
  ghost predicate Fits(m: MathLib, path: seq<Vec3>, spacing: real, capacity: nat)
    requires m.SqrtLaw() && |path| > 0 && spacing > 0.0
  {
    CumulativeMonotone(m, path, 0, |path| - 1);
    SampleCount(Cumulative(m, path, |path| - 1), spacing) <= capacity
  }
}
