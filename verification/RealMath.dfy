/**
 * The C mathematical library as the controller uses it.
 *
 * Every function is known only through algebraic laws; nothing is assumed about
 * rounding.  A law is a predicate, so each theorem names the laws it rests on.
 */
module RealMath {

  datatype MathLib = MathLib(
    sqrt: real -> real,
    pow23: real -> real,
    sin: real -> real,
    cos: real -> real,
    atan2: (real, real) -> real,
    acos: real -> real,
    pi: real)
  {
    ghost predicate SqrtLaw() {
      forall x :: x >= 0.0 ==> sqrt(x) >= 0.0 && sqrt(x) * sqrt(x) == x
    }

    /** `pow23(x)` stands for `pow(x, 2.0 / 3.0)`. */
    ghost predicate Pow23Law() {
      forall x :: x >= 0.0 ==> pow23(x) >= 0.0 && pow23(x) * pow23(x) * pow23(x) == x * x
    }

    ghost predicate CircleLaw() {
      && sin(0.0) == 0.0 && cos(0.0) == 1.0
      && forall a :: sin(a) * sin(a) + cos(a) * cos(a) == 1.0
    }

    ghost predicate DoubleAngleLaw() {
      forall a :: sin(2.0 * a) == 2.0 * (sin(a) * cos(a)) && cos(2.0 * a) == cos(a) * cos(a) - sin(a) * sin(a)
    }

    ghost predicate DifferenceLaw() {
      forall a, b :: sin(a - b) == sin(a) * cos(b) - cos(a) * sin(b)
    }

    ghost predicate CosineDifferenceLaw() {
      forall a, b :: cos(a - b) == cos(a) * cos(b) + sin(a) * sin(b)
    }

    ghost predicate SineSignLaw() {
      forall a :: 0.0 < a < pi ==> sin(a) > 0.0
    }

    ghost predicate SineBoundLaw() {
      forall a :: Abs(sin(a)) <= Abs(a)
    }

    /** The angle `k` full turns further. */
    function Turned(a: real, k: int): real { a + 2.0 * pi * k as real }

    ghost predicate PeriodLaw() {
      && pi > 3.0
      && forall a, k: int :: sin(Turned(a, k)) == sin(a) && cos(Turned(a, k)) == cos(a)
    }

    /** `atan2(y, x)` is the angle of the point `(x, y)`, unless that is the origin. */
    ghost predicate Atan2Law() {
      forall y, x :: y != 0.0 || x != 0.0 ==>
        var r := sqrt(x * x + y * y);
        r * cos(atan2(y, x)) == x && r * sin(atan2(y, x)) == y
    }

    /** To the right of the origin the angle is at most the slope, and mirrored below the axis. */
    ghost predicate SlopeLaw() {
      forall y, x :: y > 0.0 && x > 0.0 ==> 0.0 < atan2(y, x) && x * atan2(y, x) <= y && atan2(-y, x) == -atan2(y, x)
    }

    ghost predicate AcosLaw() {
      forall d :: -1.0 <= d <= 1.0 ==> cos(acos(d)) == d && sin(acos(d)) >= 0.0
    }
  }

  function Abs(x: real): real {
    if x < 0.0 then -x else x
  }

  function Min(a: real, b: real): real {
    if a <= b then a else b
  }

  function Max(a: real, b: real): real {
    if a >= b then a else b
  }

  lemma ProductPositive(a: real, b: real)
    requires a > 0.0 && b > 0.0
    ensures a * b > 0.0
  {}

  /** The product as a separate number: the solver folds `x * x > 0.0` into `x != 0.0`. */
  lemma PositiveProduct(a: real, b: real) returns (p: real)
    requires a > 0.0 && b > 0.0
    ensures p == a * b && p > 0.0
  {
    p := a * b;
  }

  lemma SquareStrict(a: real, b: real)
    requires 0.0 <= a < b
    ensures a * a < b * b
  {
    ProductPositive(b - a, b + a);
    assert (b - a) * (b + a) == b * b - a * a;
  }

  lemma SquareMonotone(a: real, b: real)
    requires 0.0 <= a && 0.0 <= b
    ensures a <= b <==> a * a <= b * b
  {
    if a < b {
      SquareStrict(a, b);
    } else if b < a {
      SquareStrict(b, a);
    }
  }

  lemma SquareInjective(a: real, b: real)
    requires 0.0 <= a && 0.0 <= b && a * a == b * b
    ensures a == b
  {
    SquareMonotone(a, b);
    SquareMonotone(b, a);
  }

  lemma CubeStrict(a: real, b: real)
    requires 0.0 <= a < b
    ensures a * a * a < b * b * b
  {
    SquareStrict(a, b);
    assert (b * b - a * a) * b > 0.0;
    assert a * a * a <= a * a * b;
  }

  lemma CubeMonotone(a: real, b: real)
    requires 0.0 <= a && 0.0 <= b && a * a * a <= b * b * b
    ensures a <= b
  {
    if b < a {
      CubeStrict(b, a);
    }
  }

  lemma DivideMultiply(a: real, b: real)
    requires b > 0.0
    ensures b * (a / b) == a
  {}

  lemma DivideCompare(a: real, b: real, c: real)
    requires b > 0.0
    ensures c < a / b <==> c * b < a
    ensures c <= a / b <==> c * b <= a
  {
    DivideMultiply(a, b);
    var q := a / b;
    assert q * b == a;
    if c < q {
      ProductPositive(q - c, b);
    } else if q < c {
      ProductPositive(c - q, b);
    }
  }

  lemma Cancel(c: real, x: real, y: real)
    requires c > 0.0
    ensures c * x == c * y ==> x == y
    ensures c * x <= c * y ==> x <= y
    ensures c * x < c * y ==> x < y
  {
    if x < y {
      ProductPositive(c, y - x);
    } else if y < x {
      ProductPositive(c, x - y);
    }
  }

  lemma ScaleLe(c: real, x: real, y: real)
    requires c >= 0.0 && x <= y
    ensures c * x <= c * y
  {}

  lemma PositiveQuotient(a: real, b: real)
    requires a > 0.0 && b > 0.0
    ensures a / b > 0.0 && b * (a / b) == a
  {
    DivideMultiply(a, b);
    DivideCompare(a, b, 0.0);
  }
}
