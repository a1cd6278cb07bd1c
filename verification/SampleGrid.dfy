/**
 * The discrete sample times `0, dt, 2*dt, ...` with the exact final time `T` appended,
 * shared by the S-curve and the quintic profile.
 */
module SampleGrid {
  import opened RealMath

  /** `n` is the least positive number of samples whose regular spacing reaches `T`. */
  ghost predicate IsSampleCount(n: nat, T: real, dt: real) {
    && n >= 1 && T <= (n - 1) as real * dt
    && (n >= 2 ==> (n - 2) as real * dt < T)
  }

  /** The same number in closed form. */
  function SampleCount(T: real, dt: real): nat
    requires T >= 0.0 && dt > 0.0
  {
    DivideCompare(T, dt, 0.0);
    var k := (T / dt).Floor;
    if k as real * dt < T then k + 2 else k + 1
  }

  lemma SampleCountIs(T: real, dt: real)
    requires T >= 0.0 && dt > 0.0
    ensures IsSampleCount(SampleCount(T, dt), T, dt)
  {
    DivideCompare(T, dt, 0.0);
    var k := (T / dt).Floor;
    DivideCompare(T, dt, k as real);
    DivideCompare(T, dt, (k + 1) as real);
    if k > 0 {
      RegularOrder(dt, k - 1, k);
    }
  }

  function SampleTime(n: nat, T: real, dt: real, i: nat): real
    requires i < n
  {
    if i == n - 1 then T else i as real * dt
  }

  method CountSamples(T: real, dt: real) returns (n: nat)
    requires T > 0.0 && dt > 0.0
    ensures n >= 2 && IsSampleCount(n, T, dt)
  {
    n := 0;
    var ti := 0.0;
    PositiveQuotient(T, dt);
    while ti <= T
      invariant ti == n as real * dt
      invariant n > 0 ==> (n - 1) as real * dt <= T
      decreases (T / dt).Floor + 1 - n
    {
      StillBelow(T, dt, n);
      n := n + 1;
      ti := n as real * dt;
    }
    var lastRegular := (n - 1) as real * dt;
    if lastRegular < T {
      n := n + 1;
    }
  }

  lemma StillBelow(T: real, dt: real, n: nat)
    requires dt > 0.0 && n as real * dt <= T
    ensures n <= (T / dt).Floor
  {
    DivideCompare(T, dt, n as real);
  }

  lemma CountNotBelow(m: nat, n: nat, T: real, dt: real)
    requires T >= 0.0 && dt > 0.0 && IsSampleCount(m, T, dt) && IsSampleCount(n, T, dt)
    ensures n <= m
  {
    if m < n {
      CountStep(m, n, dt);
    }
  }

  lemma CountStep(m: nat, n: nat, dt: real)
    requires dt > 0.0 && 1 <= m < n
    ensures (m - 1) as real * dt <= (n - 2) as real * dt
  {
    RegularOrder(dt, m - 1, n - 2);
  }

  /** The sample count is determined by duration and spacing. */
  lemma SampleCountUnique(m: nat, n: nat, T: real, dt: real)
    requires T >= 0.0 && dt > 0.0 && IsSampleCount(m, T, dt) && IsSampleCount(n, T, dt)
    ensures m == n
  {
    CountNotBelow(m, n, T, dt);
    CountNotBelow(n, m, T, dt);
  }

  lemma RegularOrder(dt: real, i: nat, k: nat)
    requires dt > 0.0 && i <= k
    ensures 0.0 <= i as real * dt <= k as real * dt
    ensures (i + 1) as real * dt == i as real * dt + dt
  {
    ScaledOrder(dt, i as real, k as real);
  }

  lemma ScaledOrder(dt: real, x: real, y: real)
    requires dt > 0.0 && 0.0 <= x <= y
    ensures 0.0 <= x * dt <= y * dt && (x + 1.0) * dt == x * dt + dt
  {}

  /** The times start at zero, strictly increase by at most `dt`, and end exactly at `T`. */
  lemma SampleTimes(n: nat, T: real, dt: real, i: nat)
    requires T >= 0.0 && dt > 0.0 && IsSampleCount(n, T, dt) && i < n
    ensures SampleTime(n, T, dt, 0) == 0.0 && SampleTime(n, T, dt, n - 1) == T
    ensures 0.0 <= SampleTime(n, T, dt, i) <= T
    ensures i + 1 < n ==> 0.0 < SampleTime(n, T, dt, i + 1) - SampleTime(n, T, dt, i) <= dt
  {
    if i + 1 < n {
      RegularOrder(dt, i, n - 2);
      if i + 1 == n - 1 {
        assert (n - 1) as real * dt == i as real * dt + dt;
      } else {
        assert SampleTime(n, T, dt, i + 1) == i as real * dt + dt;
      }
    }
  }
}
