/**
 * Python `Decimal` rounding, on exact reals. `round(d)` and `round(d, n)`
 * on a `Decimal` both round half to even (the default context rounding).
 */
module Decimal {

  predicate IsEven(n: int) {
    n % 2 == 0
  }

  /** `n` is a nearest integer to `x`, and the even one when `x` lies halfway. */
  ghost predicate IsHalfEvenRounding(x: real, n: int) {
    && n as real - 0.5 <= x <= n as real + 0.5
    && (x == n as real - 0.5 || x == n as real + 0.5 ==> IsEven(n))
  }

  /** `r` is a whole number of `1/scale` steps: the half-even rounding of `x` at that scale. */
  ghost predicate IsHalfEvenAtScale(x: real, scale: real, r: real) {
    && (r * scale).Floor as real == r * scale
    && IsHalfEvenRounding(x * scale, (r * scale).Floor)
  }

  /** Python `round(x)` for a `Decimal` x. */
  function RoundHalfEven(x: real): (n: int)
    ensures IsHalfEvenRounding(x, n)
  {
    var f := x.Floor;
    var frac := x - f as real;
    if frac < 0.5 then f
    else if frac > 0.5 then f + 1
    else if IsEven(f) then f
    else f + 1
  }

  /** Half-even rounding is the only rounding that meets IsHalfEvenRounding. */
  lemma RoundHalfEvenUnique(x: real, n: int)
    requires IsHalfEvenRounding(x, n)
    ensures n == RoundHalfEven(x)
  {
    var r := RoundHalfEven(x);
    assert n as real - 0.5 <= x <= r as real + 0.5 && r as real - 0.5 <= x <= n as real + 0.5;
    assert r - 1 <= n <= r + 1;
  }

  /** Rounding an integer gives it back. */
  lemma RoundHalfEvenOfInt(k: int)
    ensures RoundHalfEven(k as real) == k
  {
    RoundHalfEvenUnique(k as real, k);
  }

  /** Rounding never goes down when its argument goes up. */
  lemma RoundHalfEvenMonotone(x: real, y: real)
    requires x <= y
    ensures RoundHalfEven(x) <= RoundHalfEven(y)
  {
    var a, b := RoundHalfEven(x), RoundHalfEven(y);
    assert a as real - 0.5 <= x && y <= b as real + 0.5;
    assert a <= b + 1;
    assert a == b + 1 ==> x == y && IsEven(a) && IsEven(b);
  }

  const Micro: real := 0.000001

  /** Python `round(d, 6)` for a `Decimal` d: the nearest multiple of 10^-6, ties to even. */
  function Round6(x: real): (r: real)
    ensures IsHalfEvenAtScale(x, 1000000.0, r)
    ensures x - Micro / 2.0 <= r <= x + Micro / 2.0
  {
    var n := RoundHalfEven(x * 1000000.0);
    assert n as real - 0.5 <= x * 1000000.0 <= n as real + 0.5;
    var r := n as real / 1000000.0;
    assert r * 1000000.0 == n as real;
    assert (r * 1000000.0).Floor == n;
    r
  }

  /** Round6 is the only rounding to six places that is half-even. */
  lemma Round6Unique(x: real, r: real)
    requires IsHalfEvenAtScale(x, 1000000.0, r)
    ensures r == Round6(x)
  {
    var n := (r * 1000000.0).Floor;
    RoundHalfEvenUnique(x * 1000000.0, n);
    assert r == n as real / 1000000.0;
  }

  /** A value with at most six decimal places is left as it is by Round6. */
  lemma Round6OfMicros(k: int)
    ensures Round6(k as real / 1000000.0) == k as real / 1000000.0
  {
    assert k as real / 1000000.0 * 1000000.0 == k as real;
    RoundHalfEvenOfInt(k);
  }

  /** Rounding to six places twice is rounding once. */
  lemma Round6Idempotent(x: real)
    ensures Round6(Round6(x)) == Round6(x)
  {
    Round6OfMicros(RoundHalfEven(x * 1000000.0));
  }
}
