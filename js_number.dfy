/** The few JavaScript number operations the model needs, over exact reals:
    `Math.round`, truncation toward zero (what a store into an `Int16Array`
    does to an in-range value) and the `%` operator, which truncates. */
module JsNumber {

  /** `Math.round(x)`: the nearest integer, halves rounded up (toward +infinity). */
  function RoundHalfUp(x: real): (r: int)
    ensures x - 0.5 < r as real <= x + 0.5
  {
    (x + 0.5).Floor
  }

  /** Truncation toward zero. */
  function Trunc(x: real): (r: int)
    ensures 0.0 <= x ==> 0 <= r && r as real <= x < r as real + 1.0
    ensures x < 0.0 ==> r <= 0 && r as real - 1.0 < x <= r as real
  {
    if x >= 0.0 then x.Floor else -((-x).Floor)
  }

  /** JavaScript's `x % m` for a positive modulus: the remainder takes the
      sign of the dividend. */
  function Rem(x: real, m: real): (r: real)
    requires m > 0.0
    ensures 0.0 <= x ==> 0.0 <= r < m
    ensures x < 0.0 ==> -m < r <= 0.0
  {
    RemBounds(x, m);
    x - m * Trunc(x / m) as real
  }

  lemma RemBounds(x: real, m: real)
    requires m > 0.0
    ensures var t := Trunc(x / m) as real;
      (0.0 <= x ==> m * t <= x < m * t + m) && (x < 0.0 ==> m * t - m < x <= m * t)
  {
    var q := x / m;
    var t := Trunc(q) as real;
    QuotientSign(x, m);
    DivMul(x, m);
    if 0.0 <= x {
      AboveMultiple(x, m, q, t);
    } else {
      BelowMultiple(x, m, q, t);
    }
  }

  /** `x == q * m` with `t <= q < t + 1` puts `x` in `[m * t, m * t + m)`. */
  lemma AboveMultiple(x: real, m: real, q: real, t: real)
    requires m > 0.0 && q * m == x && t <= q < t + 1.0
    ensures m * t <= x
    ensures x < m * t + m
  {
    var d := q - t;
    assert 0.0 <= d < 1.0;
    assert x == m * t + m * d;
    assert m * d >= 0.0;
    assert m * d < m;
  }

  /** `x == q * m` with `t - 1 < q <= t` puts `x` in `(m * t - m, m * t]`. */
  lemma BelowMultiple(x: real, m: real, q: real, t: real)
    requires m > 0.0 && q * m == x && t - 1.0 < q <= t
    ensures m * t - m < x
    ensures x <= m * t
  {
    var d := t - q;
    assert 0.0 <= d < 1.0;
    assert x == m * t - m * d;
    assert m * d >= 0.0;
    assert m * d < m;
  }

  lemma QuotientSign(x: real, m: real)
    requires m > 0.0
    ensures 0.0 <= x <==> 0.0 <= x / m
  {}

  lemma DivMul(x: real, m: real)
    requires m > 0.0
    ensures (x / m) * m == x
  {}

  lemma MulMonotone(a: real, b: real, m: real)
    requires a <= b && m > 0.0
    ensures a * m <= b * m
  {}

  lemma MulStrict(a: real, b: real, m: real)
    requires a < b && m > 0.0
    ensures a * m < b * m
  {}

  /** Adding one more value in `[lo, hi]` to a total of `k` such values. */
  lemma AddWithin(total: real, k: real, v: real, lo: real, hi: real)
    requires k * lo <= total <= k * hi && lo <= v <= hi
    ensures (k + 1.0) * lo <= total + v <= (k + 1.0) * hi
  {}

  /** A total of `n` values each in `[lo, hi]`, divided by `n`, is in `[lo, hi]`. */
  lemma DivWithin(total: real, n: real, lo: real, hi: real)
    requires n > 0.0 && n * lo <= total <= n * hi
    ensures lo <= total / n <= hi
  {
    var q := total / n;
    DivMul(total, n);
    if q < lo { MulStrict(q, lo, n); }
    if q > hi { MulStrict(hi, q, n); }
  }

  /** The integer nearest to `y`, halves going to the even one. */
  function NearestEven(y: real): (n: int)
    ensures -0.5 <= n as real - y <= 0.5
    ensures y == y.Floor as real ==> n == y.Floor
  {
    var f := y.Floor;
    var d := y - f as real;
    if d < 0.5 then f else if d > 0.5 then f + 1 else if f % 2 == 0 then f else f + 1
  }

  /** Python's built-in `round(x, digits)` on an exact value, with
      `scale` = 10 to the power `digits`: the nearest multiple of
      1/`scale`, halves rounded to the even multiple. */
  function RoundHalfEven(x: real, scale: nat): (r: real)
    requires scale > 0
    ensures -0.5 <= r * scale as real - x * scale as real <= 0.5
  {
    var n := NearestEven(x * scale as real);
    RoundBound(x, scale, n);
    n as real / scale as real
  }

  lemma RoundBound(x: real, scale: nat, n: int)
    requires scale > 0
    requires -0.5 <= n as real - x * scale as real <= 0.5
    ensures -0.5 <= (n as real / scale as real) * scale as real - x * scale as real <= 0.5
  {
    ScaleBack(n, scale);
  }

  lemma ScaleBack(n: int, scale: nat)
    requires scale > 0
    ensures (n as real / scale as real) * scale as real == n as real
  {}

  /** `round(x, 2)`. */
  function Round2(x: real): real
  {
    RoundHalfEven(x, 100)
  }

  /** `round(x, 4)`. */
  function Round4(x: real): real
  {
    RoundHalfEven(x, 10000)
  }

  lemma RoundUnfold(x: real, scale: nat)
    requires scale > 0
    ensures RoundHalfEven(x, scale) == NearestEven(x * scale as real) as real / scale as real
  {}

  /** A value that already is a multiple of 1/`scale` is left as it is. */
  lemma RoundHalfEvenExact(k: int, scale: nat)
    requires scale > 0
    ensures RoundHalfEven(k as real / scale as real, scale) == k as real / scale as real
  {
    var x := k as real / scale as real;
    ScaleBack(k, scale);
    assert NearestEven(x * scale as real) == k;
    RoundUnfold(x, scale);
  }

  /** `[Math.floor(d / 60), Math.floor(d % 60)]`: a number of seconds shown
      as minutes and seconds. */
  function MinutesSeconds(d: real): (int, int)
  {
    ((d / 60.0).Floor, Rem(d, 60.0).Floor)
  }

  /** For a non-negative number of seconds the two parts are the whole
      minutes and the whole seconds left over. */
  lemma MinutesSecondsSplit(d: real)
    requires d >= 0.0
    ensures var (minutes, seconds) := MinutesSeconds(d);
      0 <= seconds < 60 && 60 * minutes + seconds == d.Floor
  {
    var q := (d / 60.0).Floor;
    assert Trunc(d / 60.0) == q;
    var r := Rem(d, 60.0);
    assert d == 60.0 * q as real + r;
    var f := r.Floor;
    assert 60.0 * q as real + f as real <= d < 60.0 * q as real + f as real + 1.0;
    assert d.Floor == 60 * q + f;
  }
}
