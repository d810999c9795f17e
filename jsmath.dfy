/** The JavaScript arithmetic the application relies on, written out over
    Dafny's unbounded integers and exact reals: `Math.floor`, `Math.ceil`,
    `Math.round`, `Math.max`/`Math.min`, the truncating `%` operator, and the
    number values (NaN, the infinities) that the duration checks test for. */
module JsMath {

  /** `Math.floor` */
  function Floor(x: real): (r: int)
    ensures r as real <= x < r as real + 1.0
  {
    x.Floor
  }

  /** `Math.floor` ignores whole numbers added to or taken from its argument. */
  lemma FloorShift(x: real, k: int)
    ensures Floor(x - k as real) == Floor(x) - k
  {
    var n := Floor(x) - k;
    assert n as real <= x - k as real < n as real + 1.0;
  }

  /** The quotient and remainder of `q * d + r` for `0 <= r < d`. */
  lemma DivModOf(q: int, d: int, r: int)
    requires d > 0 && 0 <= r < d
    ensures (q * d + r) / d == q && (q * d + r) % d == r
  {
    var n := q * d + r;
    assert n == d * (n / d) + n % d;
    var e := n / d - q;
    assert d * e == r - n % d;
    assert -d < d * e < d;
  }

  /** Adding a multiple of `d` leaves the remainder by `d` as it was. */
  lemma ModOfMultiple(q: int, d: int, r: int)
    requires d > 0 && r >= 0
    ensures (q * d + r) % d == r % d
  {
    assert r == d * (r / d) + r % d;
    assert q * d + r == (q + r / d) * d + r % d;
    DivModOf(q + r / d, d, r % d);
  }

  /** `Math.floor` is monotone. */
  lemma FloorMonotone(x: real, y: real)
    requires x <= y
    ensures Floor(x) <= Floor(y)
  {
  }

  /** `Math.ceil` */
  function Ceil(x: real): (r: int)
    ensures r as real - 1.0 < x <= r as real
  {
    -Floor(-x)
  }

  /** `Math.round`: halves round toward positive infinity. */
  function Round(x: real): (r: int)
    ensures x - 0.5 < r as real <= x + 0.5
  {
    Floor(x + 0.5)
  }

  /** `Math.floor(a / b)` for integers and a positive divisor. */
  function FloorDiv(a: int, b: int): (q: int)
    requires b > 0
    ensures b * q <= a < b * q + b
  {
    a / b
  }

  /** The `%` operator on integers with a positive divisor: the remainder
      takes the sign of the dividend (truncating division), unlike Dafny's
      Euclidean `%`. */
  function Rem(a: int, b: int): (r: int)
    requires b > 0
    ensures -b < r < b
    ensures a >= 0 ==> 0 <= r && r == a % b
    ensures a < 0 ==> r <= 0 && a - r == -b * ((-a) / b)
  {
    if a >= 0 then a % b else -((-a) % b)
  }

  /** The `%` operator on reals with a positive divisor. */
  function RemReal(a: real, b: real): (r: real)
    requires b > 0.0
    ensures a >= 0.0 ==> 0.0 <= r < b
    ensures a < 0.0 ==> -b < r <= 0.0
  {
    if a >= 0.0 then RemNonNegative(a, b) else -RemNonNegative(-a, b)
  }

  function RemNonNegative(a: real, b: real): (r: real)
    requires a >= 0.0 && b > 0.0
    ensures 0.0 <= r < b
    ensures a - r == b * Floor(a / b) as real
  {
    var q := Floor(a / b) as real;
    ScaleBounds(a, b, q);
    a - b * q
  }

  /** From `q <= a / b < q + 1` and `b > 0`: `b * q <= a < b * q + b`. */
  lemma ScaleBounds(a: real, b: real, q: real)
    requires b > 0.0 && q <= a / b < q + 1.0
    ensures b * q <= a < b * q + b
  {
    var x := a / b;
    assert b * x == a;
    var y := q + 1.0 - x;
    assert b * y > 0.0;
    assert b * y == b * q + b - b * x;
    assert b * q + b - a > 0.0;
    var z := x - q;
    assert z == 0.0 || b * z > 0.0;
    assert b * z == b * x - b * q;
    assert a - b * q >= 0.0;
  }

  function Max(a: real, b: real): (r: real)
    ensures r >= a && r >= b && (r == a || r == b)
  {
    if a >= b then a else b
  }

  function Min(a: real, b: real): (r: real)
    ensures r <= a && r <= b && (r == a || r == b)
  {
    if a <= b then a else b
  }

  function MaxInt(a: int, b: int): (r: int)
    ensures r >= a && r >= b && (r == a || r == b)
  {
    if a >= b then a else b
  }

  function MinInt(a: int, b: int): (r: int)
    ensures r <= a && r <= b && (r == a || r == b)
  {
    if a <= b then a else b
  }

  /** A JavaScript number: a finite value, one of the two infinities, or NaN. */
  datatype JsNumber = NaN | PositiveInfinity | NegativeInfinity | Finite(value: real) {

    /** `this < x` for a finite `x`; every comparison with NaN is false. */
    predicate Below(x: real) {
      match this
      case NaN => false
      case PositiveInfinity => false
      case NegativeInfinity => true
      case Finite(v) => v < x
    }

    /** `this > x` for a finite `x`. */
    predicate Above(x: real) {
      match this
      case NaN => false
      case PositiveInfinity => true
      case NegativeInfinity => false
      case Finite(v) => v > x
    }
  }
}
