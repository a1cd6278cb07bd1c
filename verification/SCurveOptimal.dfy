/** The selected profile is the fastest one that the limits allow. */
module SCurveOptimal {
  import opened RealMath
  import opened SCurveTiming
  import opened SCurveMotion

  /** Each limit is reached, or the phase that would hold it vanishes. */
  ghost predicate Extreme(t: Timing, vMax: real, aMax: real) {
    (t.vPeak == vMax || t.tV == 0.0) && (t.aPeak == aMax || t.tA == 0.0)
  }

  lemma TotalTimeIs(t: Timing)
    ensures TotalTime(t) == 4.0 * t.tJ + 2.0 * t.tA + t.tV
  {
    hide StartTime;
    Origin(t, 1.0);
    UnfoldTime(t, 0);
    UnfoldTime(t, 1);
    UnfoldTime(t, 2);
    UnfoldTime(t, 3);
    UnfoldTime(t, 4);
    UnfoldTime(t, 5);
    UnfoldTime(t, 6);
  }

  lemma UnfoldTime(t: Timing, k: nat)
    requires k < SEGMENTS
    ensures StartTime(t, k + 1) == StartTime(t, k) + Durations(t)[k]
  {}

  // ---- products and sums of the two ramp times ----

  /** With the product fixed, the sum is least when the first factor is as large as it may be. */
  lemma SumAtLeast(h: real, p: real, h1: real, p1: real)
    requires 0.0 < h <= h1 <= p1 && h * p > h1 * p1
    ensures h + p > h1 + p1
  {
    assert h * (p - p1) > p1 * (h1 - h);
    assert p1 * (h1 - h) >= h * (h1 - h);
    Cancel(h, h1 - h, p - p1);
  }

  lemma SumOfEqual(h: real, p: real, g: real)
    requires 0.0 < h && 0.0 < p && 0.0 < g && h * p > g * g
    ensures h + p > 2.0 * g
  {
    var s, d := h + p, h - p;
    assert s * s == 4.0 * (h * p) + d * d;
    assert (2.0 * g) * (2.0 * g) == 4.0 * (g * g);
    if s <= 2.0 * g {
      SquareMonotone(s, 2.0 * g);
    }
  }

  /** Ramps with smaller first factor and smaller product: a smaller product weighs more than a smaller sum. */
  lemma Corner(h: real, p: real, x: real, h1: real, p1: real, x1: real)
    requires 0.0 < h <= p && 0.0 < h1 <= p1 && h <= h1 && x == h * p && x1 == h1 * p1 && x <= x1
    ensures x * (2.0 * (h1 + p1) - (h + p)) <= (h1 + p1) * x1
  {
    var s, s1 := h + p, h1 + p1;
    ProductPositive(h, p);
    if s >= s1 {
      ScaleLe(x, 2.0 * s1 - s, s1);
      ScaleLe(s1, x, x1);
    } else if p >= h1 {
      WideCorner(h, p, h1, p1, s1 - s);
      assert 2.0 * s1 - s == s1 + (s1 - s);
    } else {
      NarrowCorner(h, p, h1, p1);
    }
  }

  lemma WideCorner(h: real, p: real, h1: real, p1: real, d: real)
    requires 0.0 < h <= h1 <= p && h1 <= p1 && 0.0 < d == (h1 + p1) - (h + p)
    ensures (h * p) * ((h1 + p1) + d) <= (h1 + p1) * (h1 * p1)
  {
    WideProduct(h, p, h1, p1, d);
    ScaleLe(h1 - h, 0.0, p - h1);
    var y, w, z := h1 * (p1 - d), (h1 + p1) + d, (h1 + p1) * (h1 * p1);
    WideBound(h1, p1, d, y, w, z);
    Weaken(h * p, y, w, z);
  }

  lemma Weaken(x: real, y: real, w: real, z: real)
    requires x <= y && w > 0.0 && w * y <= z
    ensures x * w <= z
  {
    ScaleLe(w, x, y);
  }

  lemma WideProduct(h: real, p: real, h1: real, p1: real, d: real)
    requires d == (h1 + p1) - (h + p)
    ensures h * p == h1 * (p1 - d) - (h1 - h) * (p - h1)
  {}

  lemma WideBound(h1: real, p1: real, d: real, y: real, w: real, z: real)
    requires h1 > 0.0 && d > 0.0 && y == h1 * (p1 - d) && w == (h1 + p1) + d && z == (h1 + p1) * (h1 * p1)
    ensures w * y <= z
  {
    var loss := PositiveProduct(d, h1 + d);
    ProductPositive(h1, loss);
    calc {
      w * y;
      h1 * ((h1 + p1) * p1 - loss);
      z - h1 * loss;
    }
  }

  /** The product grows with `h` up to `p`. */
  lemma ProductGrows(h: real, p: real, s: real)
    requires 0.0 < h <= p && 3.0 * p <= 2.0 * s
    ensures (h * p) * (2.0 * s - (h + p)) <= 2.0 * ((p * p) * (s - p))
  {
    var d, r := p - h, 2.0 * s - 2.0 * p - h;
    ScaleLe(d, 0.0, r);
    ScaleLe(p, 0.0, d * r);
    assert 2.0 * ((p * p) * (s - p)) - (h * p) * (2.0 * s - (h + p)) == p * (d * r);
  }

  /** And the square with its side up to half of `s`. */
  lemma SquareGrows(p: real, g: real, s: real)
    requires 0.0 < p < g && 2.0 * g <= s
    ensures (p * p) * (s - p) <= (g * g) * (s - g)
  {
    var d, f := g - p, g * (s - g - p) + p * (s - p);
    ScaleLe(g, 0.0, s - g - p);
    ScaleLe(p, 0.0, s - p);
    ScaleLe(d, 0.0, f);
    assert (g * g) * (s - g) - (p * p) * (s - p) == d * f;
  }

  lemma NarrowCorner(h: real, p: real, h1: real, p1: real)
    requires 0.0 < h <= p < h1 <= p1
    ensures (h * p) * (2.0 * (h1 + p1) - (h + p)) <= (h1 + p1) * (h1 * p1)
  {
    var s1, x1 := h1 + p1, h1 * p1;
    ProductGrows(h, p, s1);
    SquareGrows(p, h1, s1);
    ProductPositive(h1, p1);
    ScaleLe(x1, 2.0 * h1, s1);
    assert 2.0 * ((h1 * h1) * p1) == x1 * (2.0 * h1);
  }

  // ---- any feasible timing against an extreme one ----

  /** The two ramp times, their product, and the time at which the peak velocity would cover the distance. */
  ghost predicate Ramps(t: Timing, j: real, h: real, p: real, x: real, w: real) {
    && h == t.tJ && p == t.tJ + t.tA && x == h * p && w == 2.0 * t.tJ + t.tA + t.tV
    && 0.0 < h <= p && 0.0 < x && h + p <= w && t.aPeak == j * h && t.vPeak == j * x && j * (x * w) == 1.0
    && TotalTime(t) == (h + p) + w
  }

  lemma RampsOf(t: Timing, j: real) returns (h: real, p: real, x: real, w: real)
    requires Balanced(t, j)
    ensures Ramps(t, j, h, p, x, w)
  {
    h, p, w := t.tJ, t.tJ + t.tA, 2.0 * t.tJ + t.tA + t.tV;
    x := PositiveProduct(h, p);
    TotalTimeIs(t);
    RampProducts(t, j, h, p, w);
  }

  lemma RampProducts(t: Timing, j: real, h: real, p: real, w: real)
    requires t.aPeak == j * h && t.vPeak == t.aPeak * p && t.vPeak * w == 1.0
    ensures t.vPeak == j * (h * p) && j * ((h * p) * w) == 1.0
  {
    assert (j * h) * p == j * (h * p);
    assert (j * (h * p)) * w == j * ((h * p) * w);
  }

  /** The ramps of any feasible timing against those of an extreme one. */
  lemma ExtremeRamps(h: real, p: real, x: real, w: real, h1: real, p1: real, x1: real, w1: real)
    requires 0.0 < h <= p && x == h * p && h + p <= w && 0.0 < h1 <= p1 && 0.0 < x1 == h1 * p1 && h1 + p1 <= w1
    requires x * w == x1 * w1 && (x <= x1 || w1 == h1 + p1) && (h <= h1 || h1 == p1)
    ensures h <= h1 && x <= x1
  {
    if w1 == h1 + p1 {
      StretchedRamps(h, p, x, w, h1, p1, x1, w1);
    }
    if h1 == p1 {
      FirstRamp(h, p, h1);
    }
  }

  /** A quantity that is at the limit is at least any other within it. */
  lemma AtLimit(j: real, y: real, y1: real, limit: real)
    requires j > 0.0 && j * y <= limit
    ensures j * y1 == limit ==> y <= y1
  {
    Cancel(j, y, y1);
  }

  lemma FirstRamp(h: real, p: real, g: real)
    requires 0.0 < h <= p && 0.0 < g && h * p <= g * g
    ensures h <= g
  {
    ScaleLe(h, h, p);
    SquareMonotone(h, g);
  }

  /** Without a cruise the product of the ramp times cannot be exceeded. */
  lemma StretchedRamps(h: real, p: real, x: real, w: real, h1: real, p1: real, x1: real, w1: real)
    requires 0.0 < h <= p && x == h * p && h + p <= w && 0.0 < h1 <= p1 && 0.0 < x1 == h1 * p1 && w1 == h1 + p1
    requires x * w == x1 * w1 && (h <= h1 || h1 == p1)
    ensures x <= x1
  {
    if x > x1 {
      LongerSum(h, p, h1, p1);
      LargerProduct(x, w, x1, w1);
    }
  }

  lemma LongerSum(h: real, p: real, h1: real, p1: real)
    requires 0.0 < h <= p && 0.0 < h1 <= p1 && h * p > h1 * p1 && (h <= h1 || h1 == p1)
    ensures h + p > h1 + p1
  {
    if h1 == p1 {
      SumOfEqual(h, p, h1);
    } else {
      SumAtLeast(h, p, h1, p1);
    }
  }

  lemma LargerProduct(x: real, w: real, x1: real, w1: real)
    requires 0.0 < x1 < x && 0.0 < w1 < w
    ensures x1 * w1 < x * w
  {
    ProductPositive(x - x1, w);
    ProductPositive(x1, w - w1);
    assert x * w - x1 * w1 == (x - x1) * w + x1 * (w - w1);
  }

  lemma ShorterTotal(x: real, x1: real, s: real, s1: real, w: real, w1: real)
    requires 0.0 < x <= x1 && x * w == x1 * w1 && s1 <= w1 && x * (2.0 * s1 - s) <= s1 * x1
    ensures s1 + w1 <= s + w
  {
    ScaleLe(x1 - x, s1, w1);
    assert x * (s1 - s) <= (x1 - x) * s1;
    assert x * (w - w1) == (x1 - x) * w1;
    Cancel(x, s1 - s, w - w1);
  }

  lemma SameDistance(j: real, x: real, w: real, x1: real, w1: real)
    requires j > 0.0 && j * (x * w) == 1.0 == j * (x1 * w1)
    ensures x * w == x1 * w1
  {
    Cancel(j, x * w, x1 * w1);
  }

  /** An extreme timing has the highest peaks and the least duration of all feasible ones. */
  lemma ExtremeIsBest(t: Timing, best: Timing, vMax: real, aMax: real, j: real)
    requires ValidRequest(vMax, aMax, j) && Feasible(t, vMax, aMax, j) && Feasible(best, vMax, aMax, j)
    requires Extreme(best, vMax, aMax)
    ensures t.vPeak <= best.vPeak && t.aPeak <= best.aPeak && TotalTime(best) <= TotalTime(t)
  {
    hide TotalTime, Balanced, Ramps, Extreme;
    var h, p, x, w := RampsOf(t, j);
    var h1, p1, x1, w1 := RampsOf(best, j);
    RampsCompare(t, best, vMax, aMax, j, h, p, x, w, h1, p1, x1, w1);
    RampsBetter(t, best, j, h, p, x, w, h1, p1, x1, w1);
  }

  lemma RampsCompare(t: Timing, best: Timing, vMax: real, aMax: real, j: real,
      h: real, p: real, x: real, w: real, h1: real, p1: real, x1: real, w1: real)
    requires j > 0.0 && Ramps(t, j, h, p, x, w) && Ramps(best, j, h1, p1, x1, w1)
    requires t.vPeak <= vMax && t.aPeak <= aMax && Extreme(best, vMax, aMax)
    ensures (x <= x1 || w1 == h1 + p1) && (h <= h1 || h1 == p1)
  {
    hide TotalTime;
    AtLimit(j, x, x1, vMax);
    AtLimit(j, h, h1, aMax);
  }

  lemma RampsBetter(t: Timing, best: Timing, j: real,
      h: real, p: real, x: real, w: real, h1: real, p1: real, x1: real, w1: real)
    requires j > 0.0 && Ramps(t, j, h, p, x, w) && Ramps(best, j, h1, p1, x1, w1)
    requires (x <= x1 || w1 == h1 + p1) && (h <= h1 || h1 == p1)
    ensures t.vPeak <= best.vPeak && t.aPeak <= best.aPeak && TotalTime(best) <= TotalTime(t)
  {
    hide TotalTime;
    SameDistance(j, x, w, x1, w1);
    BestRamps(h, p, x, w, h1, p1, x1, w1);
    ScaleLe(j, x, x1);
    ScaleLe(j, h, h1);
  }

  lemma BestRamps(h: real, p: real, x: real, w: real, h1: real, p1: real, x1: real, w1: real)
    requires 0.0 < h <= p && 0.0 < x == h * p && h + p <= w
    requires 0.0 < h1 <= p1 && 0.0 < x1 == h1 * p1 && h1 + p1 <= w1
    requires x * w == x1 * w1 && (x <= x1 || w1 == h1 + p1) && (h <= h1 || h1 == p1)
    ensures h <= h1 && x <= x1 && (h1 + p1) + w1 <= (h + p) + w
  {
    ExtremeRamps(h, p, x, w, h1, p1, x1, w1);
    Corner(h, p, x, h1, p1, x1);
    ShorterTotal(x, x1, h + p, h1 + p1, w, w1);
  }

  // ---- the selection ----

  lemma SelectedExtreme(m: MathLib, vMax: real, aMax: real, jMax: real)
    requires ValidRequest(vMax, aMax, jMax)
    ensures Extreme(SelectTiming(m, vMax, aMax, jMax), vMax, aMax)
  {}

  /**
   * No profile that covers the distance within the limits takes less time than the selected one, and
   * none has a higher peak velocity or peak acceleration.
   */
  lemma SelectedIsFastest(m: MathLib, vMax: real, aMax: real, jMax: real, t: Timing)
    requires m.SqrtLaw() && m.Pow23Law() && ValidRequest(vMax, aMax, jMax) && Feasible(t, vMax, aMax, jMax)
    ensures var best := SelectTiming(m, vMax, aMax, jMax);
            TotalTime(best) <= TotalTime(t) && t.vPeak <= best.vPeak && t.aPeak <= best.aPeak
  {
    hide TotalTime, SelectTiming, Feasible, Extreme;
    var best := SelectTiming(m, vMax, aMax, jMax);
    TimingFeasible(m, vMax, aMax, jMax);
    SelectedExtreme(m, vMax, aMax, jMax);
    ExtremeIsBest(t, best, vMax, aMax, jMax);
  }

  /** Peaks, jerk and distance leave one profile. */
  lemma PeaksDetermine(t: Timing, u: Timing, j: real)
    requires j > 0.0 && Balanced(t, j) && Balanced(u, j) && t.vPeak == u.vPeak && t.aPeak == u.aPeak
    ensures t == u
  {
    Cancel(j, t.tJ, u.tJ);
    Cancel(t.aPeak, t.tJ + t.tA, u.tJ + u.tA);
    Cancel(t.vPeak, 2.0 * t.tJ + t.tA + t.tV, 2.0 * u.tJ + u.tA + u.tV);
  }

  /** The selected profile is the only one within the limits whose peaks no other exceeds. */
  lemma SelectedIsOnly(m: MathLib, vMax: real, aMax: real, jMax: real, t: Timing)
    requires m.SqrtLaw() && m.Pow23Law() && ValidRequest(vMax, aMax, jMax) && Feasible(t, vMax, aMax, jMax)
    requires forall u :: Feasible(u, vMax, aMax, jMax) ==> u.vPeak <= t.vPeak && u.aPeak <= t.aPeak
    ensures t == SelectTiming(m, vMax, aMax, jMax)
  {
    hide SelectTiming, TotalTime;
    TimingFeasible(m, vMax, aMax, jMax);
    SelectedIsFastest(m, vMax, aMax, jMax, t);
    PeaksDetermine(t, SelectTiming(m, vMax, aMax, jMax), jMax);
  }
}
