/** The sampled-workspace warning: a binned envelope that answers like a search over all samples. */
module WorkspaceMonitor {
  import opened RealMath

  const BINS := 80
  const NEIGHBORS := 2
  const Z_MARGIN := 0.025
  const RHO_MARGIN := 0.035

  datatype Status = Unavailable | Inside | Outside

  /** A sampled position: height and horizontal distance. */
  datatype Point = Point(z: real, rho: real)

  function ZToBin(zMin: real, zMax: real, z: real): (bin: nat)
    ensures bin < BINS
  {
    if zMax <= zMin then 0
    else
      var normalized := (z - zMin) / (zMax - zMin);
      var n := if normalized < 0.0 then 0.0 else if normalized > 1.0 then 1.0 else normalized;
      var bin := (n * BINS as real).Floor;
      if bin >= BINS then BINS - 1 else bin
  }

  // ---- the search over all samples ----

  ghost predicate Near(s: seq<Point>, zMin: real, zMax: real, z: real, i: nat)
    requires i < |s|
  {
    -NEIGHBORS <= ZToBin(zMin, zMax, s[i].z) - ZToBin(zMin, zMax, z) <= NEIGHBORS
  }

  /** Some nearby sample is at most the margin further out, and some at most the margin further in. */
  ghost predicate WithinEnvelope(s: seq<Point>, zMin: real, zMax: real, z: real, rho: real) {
    && (exists i :: 0 <= i < |s| && Near(s, zMin, zMax, z, i) && rho >= s[i].rho - RHO_MARGIN)
    && (exists i :: 0 <= i < |s| && Near(s, zMin, zMax, z, i) && rho <= s[i].rho + RHO_MARGIN)
  }

  predicate BeyondHeight(zMin: real, zMax: real, z: real) {
    z < zMin - Z_MARGIN || z > zMax + Z_MARGIN
  }

  ghost function Searched(s: seq<Point>, zMin: real, zMax: real, z: real, rho: real): Status {
    if BeyondHeight(zMin, zMax, z) then Outside
    else if WithinEnvelope(s, zMin, zMax, z, rho) then Inside
    else Outside
  }

  // ---- counting ----

  function CountIn(s: seq<Point>, zMin: real, zMax: real, bin: nat): nat {
    if s == [] then 0
    else CountIn(s[..|s| - 1], zMin, zMax, bin) + (if ZToBin(zMin, zMax, s[|s| - 1].z) == bin then 1 else 0)
  }

  function CountBelow(s: seq<Point>, zMin: real, zMax: real, bins: nat): nat {
    if bins == 0 then 0 else CountBelow(s, zMin, zMax, bins - 1) + CountIn(s, zMin, zMax, bins - 1)
  }

  lemma {:induction false} CountBelowNext(s: seq<Point>, zMin: real, zMax: real, x: Point, bins: nat)
    ensures CountBelow(s + [x], zMin, zMax, bins) == CountBelow(s, zMin, zMax, bins)
            + (if ZToBin(zMin, zMax, x.z) < bins then 1 else 0)
  {
    assert (s + [x])[..|s|] == s;
    if bins > 0 {
      CountBelowNext(s, zMin, zMax, x, bins - 1);
    }
  }

  /** Every sample is counted in exactly one bin. */
  lemma {:induction false} CountsSum(s: seq<Point>, zMin: real, zMax: real)
    ensures CountBelow(s, zMin, zMax, BINS) == |s|
  {
    if s == [] {
      NothingCounted(zMin, zMax, BINS);
    } else {
      var last := |s| - 1;
      CountsSum(s[..last], zMin, zMax);
      CountBelowNext(s[..last], zMin, zMax, s[last], BINS);
      assert s[..last] + [s[last]] == s;
    }
  }

  lemma NothingCounted(zMin: real, zMax: real, bins: nat)
    ensures CountBelow([], zMin, zMax, bins) == 0
  {}

  // ---- the index ----

  /** One bin holds the count, minimum and maximum of its samples. */
  ghost predicate BinOf(s: seq<Point>, zMin: real, zMax: real, bin: nat, lo: real, hi: real, count: nat, huge: real) {
    && count == CountIn(s, zMin, zMax, bin)
    && (forall i :: 0 <= i < |s| && ZToBin(zMin, zMax, s[i].z) == bin ==> lo <= s[i].rho <= hi && count > 0)
    && (count == 0 ==> lo == huge && hi == -huge)
    && (count > 0 ==> exists i :: 0 <= i < |s| && ZToBin(zMin, zMax, s[i].z) == bin && s[i].rho == lo)
    && (count > 0 ==> exists i :: 0 <= i < |s| && ZToBin(zMin, zMax, s[i].z) == bin && s[i].rho == hi)
  }

  function Lower(rho: real, lo: real): real { if rho < lo then rho else lo }

  function Upper(rho: real, hi: real): real { if rho > hi then rho else hi }

  lemma BinNext(s: seq<Point>, zMin: real, zMax: real, bin: nat, lo: real, hi: real, count: nat, huge: real, x: Point)
    requires BinOf(s, zMin, zMax, bin, lo, hi, count, huge) && -huge <= x.rho <= huge
    ensures ZToBin(zMin, zMax, x.z) != bin ==> BinOf(s + [x], zMin, zMax, bin, lo, hi, count, huge)
    ensures ZToBin(zMin, zMax, x.z) == bin ==>
            BinOf(s + [x], zMin, zMax, bin, Lower(x.rho, lo), Upper(x.rho, hi), count + 1, huge)
  {
    hide ZToBin;
    var t := s + [x];
    assert t[..|s|] == s;
    assert forall i :: 0 <= i < |s| ==> t[i] == s[i];
    assert t[|s|] == x;
    if count > 0 {
      var i :| 0 <= i < |s| && ZToBin(zMin, zMax, s[i].z) == bin && s[i].rho == lo;
      var j :| 0 <= j < |s| && ZToBin(zMin, zMax, s[j].z) == bin && s[j].rho == hi;
      assert t[i].rho == lo && t[j].rho == hi;
    }
  }

  class Monitor {
    const huge: real
    const rhoMin: array<real>
    const rhoMax: array<real>
    const sampleCount: array<nat>
    var ready: bool
    var zMin: real
    var zMax: real
    var sourceSamples: nat
    ghost var samples: seq<Point>

    ghost predicate Shape() {
      rhoMin.Length == BINS && rhoMax.Length == BINS && sampleCount.Length == BINS && rhoMin != rhoMax
    }

    /** Every bin describes exactly the samples of its height. */
    ghost predicate Valid()
      reads this, rhoMin, rhoMax, sampleCount
    {
      Shape() &&
      (ready ==>
         && sourceSamples == |samples|
         && (forall i :: 0 <= i < |samples| ==> zMin <= samples[i].z <= zMax && -huge <= samples[i].rho <= huge)
         && (forall b :: 0 <= b < BINS ==> BinOf(samples, zMin, zMax, b, rhoMin[b], rhoMax[b], sampleCount[b], huge)))
    }

    /** `huge` is the largest representable number. */
    constructor (huge: real)
      ensures Valid() && !ready && this.huge == huge
    {
      this.huge := huge;
      rhoMin := new real[BINS];
      rhoMax := new real[BINS];
      sampleCount := new nat[BINS];
      ready, zMin, zMax, sourceSamples, samples := false, 0.0, 0.0, 0, [];
    }

    method ClearBins()
      requires Shape()
      modifies rhoMin, rhoMax, sampleCount
      ensures forall b :: 0 <= b < BINS ==> rhoMin[b] == huge && rhoMax[b] == -huge && sampleCount[b] == 0
    {
      for b := 0 to BINS
        invariant forall k :: 0 <= k < b ==> rhoMin[k] == huge && rhoMax[k] == -huge && sampleCount[k] == 0
      {
        rhoMin[b], rhoMax[b] := huge, -huge;
        sampleCount[b] := 0;
      }
    }

    method AddSample(x: Point, ghost seen: seq<Point>)
      requires Shape() && -huge <= x.rho <= huge
      requires forall b :: 0 <= b < BINS ==> BinOf(seen, zMin, zMax, b, rhoMin[b], rhoMax[b], sampleCount[b], huge)
      modifies rhoMin, rhoMax, sampleCount
      ensures forall b :: 0 <= b < BINS ==> BinOf(seen + [x], zMin, zMax, b, rhoMin[b], rhoMax[b], sampleCount[b], huge)
    {
      hide BinOf, ZToBin;
      var bin := ZToBin(zMin, zMax, x.z);
      forall b | 0 <= b < BINS
        ensures b != bin ==> BinOf(seen + [x], zMin, zMax, b, rhoMin[b], rhoMax[b], sampleCount[b], huge)
        ensures b == bin ==>
                BinOf(seen + [x], zMin, zMax, b, Lower(x.rho, rhoMin[b]), Upper(x.rho, rhoMax[b]), sampleCount[b] + 1,
                huge)
      {
        BinNext(seen, zMin, zMax, b, rhoMin[b], rhoMax[b], sampleCount[b], huge, x);
      }
      if x.rho < rhoMin[bin] {
        rhoMin[bin] := x.rho;
      }
      if x.rho > rhoMax[bin] {
        rhoMax[bin] := x.rho;
      }
      sampleCount[bin] := sampleCount[bin] + 1;
    }

    /** Bins the sampled workspace over its own height range. */
    method Init(points: seq<Point>)
      requires Shape() && huge > 0.0
      requires forall i :: 0 <= i < |points| ==> -huge <= points[i].z <= huge && -huge <= points[i].rho <= huge
      modifies this, rhoMin, rhoMax, sampleCount
      ensures Valid() && ready && samples == points
      ensures points != [] ==>
              exists i, k :: 0 <= i < |points| && 0 <= k < |points| && zMin == points[i].z && zMax == points[k].z
    {
      hide BinOf;
      var zLow, zHigh := HeightRange(points, huge);
      ready, zMin, zMax, sourceSamples, samples := false, zLow, zHigh, |points|, points;
      ClearBins();
      forall b | 0 <= b < BINS
        ensures BinOf([], zMin, zMax, b, rhoMin[b], rhoMax[b], sampleCount[b], huge)
      {
        EmptyBin(zMin, zMax, b, huge);
      }
      for i := 0 to |points|
        invariant zMin == zLow && zMax == zHigh && sourceSamples == |points| && samples == points
        invariant forall b ::
                  0 <= b < BINS ==> BinOf(points[..i], zMin, zMax, b, rhoMin[b], rhoMax[b], sampleCount[b], huge)
      {
        AddSample(points[i], points[..i]);
        assert points[..i] + [points[i]] == points[..i + 1];
      }
      assert points[..|points|] == points;
      ready := true;
    }

    /** The envelope of the bins around one height. */
    method Envelope(center: nat) returns (have: bool, lo: real, hi: real)
      requires Valid() && ready && center < BINS
      ensures have <==>
              exists i :: 0 <= i < |samples| && -NEIGHBORS <= ZToBin(zMin, zMax, samples[i].z) - center <= NEIGHBORS
      ensures forall i ::
              0 <= i < |samples| && -NEIGHBORS <= ZToBin(zMin, zMax, samples[i].z) - center <= NEIGHBORS ==>
              lo <= samples[i].rho <= hi
      ensures have ==>
              exists i ::
              0 <= i < |samples| && -NEIGHBORS <= ZToBin(zMin, zMax, samples[i].z) - center <= NEIGHBORS
              && samples[i].rho == lo
      ensures have ==>
              exists i ::
              0 <= i < |samples| && -NEIGHBORS <= ZToBin(zMin, zMax, samples[i].z) - center <= NEIGHBORS
              && samples[i].rho == hi
    {
      hide ZToBin, CountIn;
      lo, hi, have := huge, -huge, false;
      for offset := -NEIGHBORS to NEIGHBORS + 1
        invariant have <==>
                  exists i :: 0 <= i < |samples| && -NEIGHBORS <= ZToBin(zMin, zMax, samples[i].z) - center < offset
        invariant !have ==> lo == huge && hi == -huge
        invariant forall i ::
                  0 <= i < |samples| && -NEIGHBORS <= ZToBin(zMin, zMax, samples[i].z) - center < offset ==>
                  lo <= samples[i].rho <= hi
        invariant have ==>
                  exists i ::
                  0 <= i < |samples| && -NEIGHBORS <= ZToBin(zMin, zMax, samples[i].z) - center < offset
                  && samples[i].rho == lo
        invariant have ==>
                  exists i ::
                  0 <= i < |samples| && -NEIGHBORS <= ZToBin(zMin, zMax, samples[i].z) - center < offset
                  && samples[i].rho == hi
      {
        var candidate := center as int + offset;
        if candidate < 0 || candidate >= BINS {
          continue;
        }
        assert BinOf(samples, zMin, zMax, candidate, rhoMin[candidate], rhoMax[candidate], sampleCount[candidate],
            huge);
        if sampleCount[candidate] == 0 {
          continue;
        }
        if rhoMin[candidate] < lo {
          lo := rhoMin[candidate];
        }
        if rhoMax[candidate] > hi {
          hi := rhoMax[candidate];
        }
        have := true;
      }
    }

    /** Answers exactly like a search over all samples. */
    method Check(m: MathLib, x: real, y: real, z: real) returns (status: Status)
      requires Valid()
      ensures status == if ready then Searched(samples, zMin, zMax, z, m.sqrt(x * x + y * y)) else Unavailable
    {
      hide BinOf, ZToBin;
      var rho := m.sqrt(x * x + y * y);
      if !ready {
        return Unavailable;
      }
      if z < zMin - Z_MARGIN || z > zMax + Z_MARGIN {
        return Outside;
      }
      var have, lo, hi := Envelope(ZToBin(zMin, zMax, z));
      if !have {
        return Outside;
      }
      return if rho < lo - RHO_MARGIN || rho > hi + RHO_MARGIN then Outside else Inside;
    }
  }

  /** The height range of the samples, both ends attained. */
  method HeightRange(points: seq<Point>, huge: real) returns (lo: real, hi: real)
    requires forall i :: 0 <= i < |points| ==> -huge <= points[i].z <= huge
    ensures forall i :: 0 <= i < |points| ==> lo <= points[i].z <= hi
    ensures points != [] ==> exists i :: 0 <= i < |points| && points[i].z == lo
    ensures points != [] ==> exists i :: 0 <= i < |points| && points[i].z == hi
  {
    lo, hi := huge, -huge;
    for n := 0 to |points|
      invariant forall i :: 0 <= i < n ==> lo <= points[i].z <= hi
      invariant if n == 0 then lo == huge else exists i :: 0 <= i < n && points[i].z == lo
      invariant if n == 0 then hi == -huge else exists i :: 0 <= i < n && points[i].z == hi
    {
      if points[n].z < lo {
        lo := points[n].z;
      }
      if points[n].z > hi {
        hi := points[n].z;
      }
      assert points[n].z <= hi && lo <= points[n].z;
    }
  }

  lemma EmptyBin(zMin: real, zMax: real, bin: nat, huge: real)
    ensures BinOf([], zMin, zMax, bin, huge, -huge, 0, huge)
  {}

  /** No source sample is ever reported outside. */
  lemma SamplesAreInside(s: seq<Point>, zMin: real, zMax: real, i: nat)
    requires i < |s| && zMin <= s[i].z <= zMax
    ensures Searched(s, zMin, zMax, s[i].z, s[i].rho) == Inside
  {
    assert Near(s, zMin, zMax, s[i].z, i);
  }
}
