/** The arithmetic the services use: JavaScript's Math.round, Math.ceil of a day count, and the
    clamps built from Math.max and Math.min. Numbers are mathematical reals and integers; IEEE
    floating point is not modelled. */
module Numeric {

  /** Milliseconds in one day, the divisor of every date difference in the source. */
  const DAY_MS: int := 1000 * 60 * 60 * 24

  /** A point in time, in milliseconds since the epoch (a JavaScript Date). */
  type Time = int

  function Abs(x: real): (r: real)
    ensures r >= 0.0 && (r == x || r == -x)
  {
    if x < 0.0 then -x else x
  }

  function Max(a: real, b: real): (r: real)
    ensures r >= a && r >= b && (r == a || r == b)
  {
    if a >= b then a else b
  }

  function Min(a: real, b: real): (r: real)
    ensures r <= a && r <= b && (r == a || r == b)
  {
    if a <= b then a else b
  }

  function MinInt(a: int, b: int): (r: int)
    ensures r <= a && r <= b && (r == a || r == b)
  {
    if a <= b then a else b
  }

  /** Math.min(hi, Math.max(lo, x)). */
  function Clamp(lo: real, hi: real, x: real): (r: real)
    requires lo <= hi
    ensures lo <= r <= hi
    ensures lo <= x <= hi ==> r == x
    ensures x < lo ==> r == lo
    ensures x > hi ==> r == hi
  {
    Min(hi, Max(lo, x))
  }

  /** Math.round: the nearest integer, a half rounded up (towards +infinity), so that
      Math.round(-2.5) is -2 and Math.round(2.5) is 3. */
  function Round(x: real): (r: int)
    ensures r as real - 0.5 <= x < r as real + 0.5
  {
    (x + 0.5).Floor
  }

  lemma RoundOfInteger(n: int)
    ensures Round(n as real) == n
  {
  }

  lemma RoundMonotone(x: real, y: real)
    requires x <= y
    ensures Round(x) <= Round(y)
  {
  }

  /** Rounding a value that lies between two integers stays between them. */
  lemma RoundWithin(x: real, lo: int, hi: int)
    requires lo as real <= x <= hi as real
    ensures lo <= Round(x) <= hi
  {
    RoundMonotone(lo as real, x);
    RoundMonotone(x, hi as real);
    RoundOfInteger(lo);
    RoundOfInteger(hi);
  }

  /** Math.ceil(a / b) for a positive divisor: the least integer r with a <= r * b. */
  function CeilDiv(a: int, b: int): (r: int)
    requires b > 0
    ensures (r - 1) * b < a <= r * b
  {
    var q := (-a) / b;
    assert q * b <= -a < q * b + b;
    -q
  }

  /** Math.floor(a / b) for a positive divisor. */
  function FloorDiv(a: int, b: int): (r: int)
    requires b > 0
    ensures r * b <= a < (r + 1) * b
  {
    a / b
  }

  /** Dividing by a positive number keeps the order. */
  lemma DivMonotone(a: real, b: real, d: real)
    requires 0.0 < d && a <= b
    ensures a / d <= b / d
  {
    assert a / d * d == a;
    assert b / d * d == b;
  }
}
