/** What the verdict of the workspace index means in metres. */
module WorkspaceHeight {
  import opened RealMath
  import opened WorkspaceMonitor

  function Width(zMin: real, zMax: real): real { (zMax - zMin) / 80.0 }

  function ClampedHeight(zMin: real, zMax: real, z: real): real {
    if z < zMin then zMin else if z > zMax then zMax else z
  }

  /** A height counted in bins from the lowest sample. */
  function InBins(zMin: real, zMax: real, z: real): real
    requires zMin < zMax
  {
    (z - zMin) / Width(zMin, zMax)
  }

  lemma InBinsIs(zMin: real, zMax: real, z: real)
    requires zMin < zMax
    ensures Width(zMin, zMax) > 0.0 && Width(zMin, zMax) * InBins(zMin, zMax, z) == z - zMin
  {
    DivideMultiply(z - zMin, Width(zMin, zMax));
  }

  lemma InBinsShare(zMin: real, zMax: real, z: real)
    requires zMin < zMax
    ensures InBins(zMin, zMax, z) == 80.0 * ((z - zMin) / (zMax - zMin))
  {
    var w, d := Width(zMin, zMax), zMax - zMin;
    DivideMultiply(z - zMin, w);
    DivideMultiply(z - zMin, d);
    BinsOf(w, d, (z - zMin) / w, (z - zMin) / d);
  }

  lemma BinsOf(w: real, d: real, x: real, y: real)
    requires d == 80.0 * w && w > 0.0 && w * x == d * y
    ensures x == 80.0 * y
  {
    Cancel(w, x, 80.0 * y);
  }

  /** Every bin is one eightieth of the height range; the last one includes its upper end. */
  lemma BinHolds(zMin: real, zMax: real, z: real)
    requires zMin < zMax
    ensures var b, c, w := ZToBin(zMin, zMax, z) as real, ClampedHeight(zMin, zMax, z) - zMin, Width(zMin, zMax);
            0.0 <= c - w * b <= w && (c - w * b == w ==> b == 79.0)
  {
    hide ZToBin, InBins, ClampedHeight, Width;
    var c, w := ClampedHeight(zMin, zMax, z), Width(zMin, zMax);
    InBinsIs(zMin, zMax, c);
    ClampedBin(zMin, zMax, z);
    BinBounds(w, ZToBin(zMin, zMax, z) as real, InBins(zMin, zMax, c), c - zMin);
  }

  lemma BinBounds(w: real, b: real, x: real, k: real)
    requires w > 0.0 && b <= x <= b + 1.0 && (x == b + 1.0 ==> b == 79.0) && w * x == k
    ensures 0.0 <= k - w * b <= w && (k - w * b == w ==> b == 79.0)
  {
    var d := x - b;
    WidthsBetween(w, x, b);
    ScaleLe(w, 0.0, d);
    ScaleLe(w, d, 1.0);
    Cancel(w, d, 1.0);
    assert k - w * b == w * d;
  }

  lemma WidthsBetween(w: real, x: real, y: real)
    ensures w * (x - y) == w * x - w * y
  {}

  lemma ClampedBin(zMin: real, zMax: real, z: real)
    requires zMin < zMax
    ensures var x, b := InBins(zMin, zMax, ClampedHeight(zMin, zMax, z)), ZToBin(zMin, zMax, z) as real;
            0.0 <= x <= 80.0 && b <= x <= b + 1.0 && (x == b + 1.0 ==> b == 79.0)
  {
    var d := zMax - zMin;
    InBinsShare(zMin, zMax, ClampedHeight(zMin, zMax, z));
    DivideCompare(z - zMin, d, 0.0);
    DivideCompare(z - zMin, d, 1.0);
    DivideMultiply(z - zMin, d);
    DivideMultiply(d, d);
    Cancel(d, d / d, 1.0);
    Cancel(d, (z - zMin) / d, 1.0);
  }

  // ---- near in metres ----

  lemma HeightsNear(zMin: real, zMax: real, y: real, z: real)
    requires zMin < zMax && ClampedHeight(zMin, zMax, y) == y
    ensures var w, d := Width(zMin, zMax), y - ClampedHeight(zMin, zMax, z);
            var apart := ZToBin(zMin, zMax, y) - ZToBin(zMin, zMax, z);
            (Abs(d) <= 2.0 * w ==> -2 <= apart <= 2) && (-2 <= apart <= 2 ==> Abs(d) <= 3.0 * w)
  {
    hide ZToBin, InBins, Width, ClampedHeight, Abs;
    var c := ClampedHeight(zMin, zMax, z);
    InBinsIs(zMin, zMax, y);
    InBinsIs(zMin, zMax, c);
    ClampedBin(zMin, zMax, y);
    ClampedBin(zMin, zMax, z);
    NearOf(Width(zMin, zMax), InBins(zMin, zMax, y), InBins(zMin, zMax, c), y - c,
      ZToBin(zMin, zMax, y), ZToBin(zMin, zMax, z));
  }

  /** Heights at most two bin widths apart are near, and near heights are at most three apart. */
  lemma NearInMetres(s: seq<Point>, zMin: real, zMax: real, z: real, i: nat)
    requires zMin < zMax && i < |s| && zMin <= s[i].z <= zMax
    ensures var w, c := Width(zMin, zMax), ClampedHeight(zMin, zMax, z);
            && (Abs(s[i].z - c) <= 2.0 * w ==> Near(s, zMin, zMax, z, i))
            && (Near(s, zMin, zMax, z, i) ==> Abs(s[i].z - c) <= 3.0 * w)
  {
    hide ZToBin, Width;
    HeightsNear(zMin, zMax, s[i].z, z);
  }

  lemma NearOf(w: real, x: real, y: real, d: real, a: nat, b: nat)
    requires w > 0.0 && w * x - w * y == d && 0.0 <= x <= 80.0 && 0.0 <= y <= 80.0 && a <= 79 && b <= 79
    requires a as real <= x <= a as real + 1.0 && (x == a as real + 1.0 ==> a == 79)
    requires b as real <= y <= b as real + 1.0 && (y == b as real + 1.0 ==> b == 79)
    ensures Abs(d) <= 2.0 * w ==> -2 <= a - b <= 2
    ensures -2 <= a - b <= 2 ==> Abs(d) <= 3.0 * w
  {
    WidthsApart(w, x, y, d, 2.0);
    WidthsApart(w, x, y, d, 3.0);
    BinsApart(x, y, a, b);
  }

  lemma WidthsApart(w: real, x: real, y: real, d: real, k: real)
    requires w > 0.0 && w * x - w * y == d
    ensures Abs(d) <= k * w <==> Abs(x - y) <= k
  {
    var u := x - y;
    assert d == w * u;
    AtMost(w, u, k);
    AtMost(w, -u, k);
    assert w * (-u) == -d;
  }

  lemma AtMost(w: real, u: real, k: real)
    requires w > 0.0
    ensures w * u <= k * w <==> u <= k
  {
    assert k * w == w * k;
    Cancel(w, u, k);
    Cancel(w, k, u);
  }

  lemma BinsApart(x: real, y: real, a: nat, b: nat)
    requires 0.0 <= x <= 80.0 && 0.0 <= y <= 80.0 && a <= 79 && b <= 79
    requires a as real <= x <= a as real + 1.0 && (x == a as real + 1.0 ==> a == 79)
    requires b as real <= y <= b as real + 1.0 && (y == b as real + 1.0 ==> b == 79)
    ensures Abs(x - y) <= 2.0 ==> -2 <= a - b <= 2
    ensures -2 <= a - b <= 2 ==> Abs(x - y) <= 3.0
  {
    if a > b + 2 {
      assert a as real >= b as real + 3.0;
    } else if b > a + 2 {
      assert b as real >= a as real + 3.0;
    }
  }

  /** Samples around a height, in metres: one at most 35 mm further out, and one at most 35 mm further in. */
  ghost predicate Surrounded(s: seq<Point>, height: real, reach: real, rho: real) {
    && (exists i :: 0 <= i < |s| && Abs(s[i].z - height) <= reach && s[i].rho <= rho + 0.035)
    && (exists i :: 0 <= i < |s| && Abs(s[i].z - height) <= reach && s[i].rho >= rho - 0.035)
  }

  /**
   * For every query: at most 25 mm beyond the height range, a point with such samples within two bin
   * widths of its height is inside, and a point that is inside has them within three.
   */
  lemma InsideMeans(s: seq<Point>, zMin: real, zMax: real, z: real, rho: real)
    requires zMin < zMax && forall i :: 0 <= i < |s| ==> zMin <= s[i].z <= zMax
    ensures var w, c := (zMax - zMin) / 80.0, ClampedHeight(zMin, zMax, z);
            && (zMin - 0.025 <= z <= zMax + 0.025 && Surrounded(s, c, 2.0 * w, rho) ==>
                  Searched(s, zMin, zMax, z, rho) == Inside)
            && (Searched(s, zMin, zMax, z, rho) == Inside ==>
                  zMin - 0.025 <= z <= zMax + 0.025 && Surrounded(s, c, 3.0 * w, rho))
            && Searched(s, zMin, zMax, z, rho) != Unavailable
  {
    hide ZToBin, Near;
    forall i | 0 <= i < |s|
      ensures var w, c := Width(zMin, zMax), ClampedHeight(zMin, zMax, z);
              && (Abs(s[i].z - c) <= 2.0 * w ==> Near(s, zMin, zMax, z, i))
              && (Near(s, zMin, zMax, z, i) ==> Abs(s[i].z - c) <= 3.0 * w)
    {
      NearInMetres(s, zMin, zMax, z, i);
    }
  }
}
