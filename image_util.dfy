/** Dimension rounding for the synthesis model's tiling constraint
    (backend/src/utils/image.ts). */
module ImageUtil {

  /** Rounding toward zero. */
  function Trunc(x: real): (t: int)
    ensures x >= 0.0 ==> t as real <= x < t as real + 1.0
    ensures x < 0.0 ==> t as real - 1.0 < x <= t as real
  {
    if x >= 0.0 then x.Floor else -((-x).Floor)
  }

  /** JavaScript's `x % d`: the remainder of a division truncated toward
      zero, so it takes the sign of `x` (unlike Dafny's `%`). */
  function JsRemainder(x: real, d: real): real
    requires d > 0.0
  {
    x - d * Trunc(x / d) as real
  }

  predicate IsMultipleOf8(x: real)
  {
    (x / 8.0).Floor as real == x / 8.0
  }

  /** `toMultipleOf8(n)`, that is `n - (n % 8)`: the multiple of 8 next to
      `n` toward zero. */
  function ToMultipleOf8(n: real): (r: real)
    ensures IsMultipleOf8(r)
    ensures n >= 0.0 ==> 0.0 <= r <= n && n - r < 8.0
    ensures n < 0.0 ==> n <= r <= 0.0 && r - n < 8.0
    ensures IsMultipleOf8(n) ==> r == n
  {
    RoundedIsScaledTrunc(n);
    n - JsRemainder(n, 8.0)
  }

  /** `n - n % 8` is 8 times the truncated quotient `n / 8`. */
  lemma RoundedIsScaledTrunc(n: real)
    ensures var q := Trunc(n / 8.0);
            && n - JsRemainder(n, 8.0) == 8.0 * q as real
            && IsMultipleOf8(8.0 * q as real)
            && (n >= 0.0 ==> 0.0 <= 8.0 * q as real <= n < 8.0 * q as real + 8.0)
            && (n < 0.0 ==> 8.0 * q as real - 8.0 < n <= 8.0 * q as real <= 0.0)
            && (IsMultipleOf8(n) ==> 8.0 * q as real == n)
  {
    var q := Trunc(n / 8.0);
    assert (8.0 * q as real) / 8.0 == q as real;
    assert ((8.0 * q as real) / 8.0).Floor == q;
    if IsMultipleOf8(n) {
      var k := (n / 8.0).Floor;
      assert k as real == n / 8.0;
      if n < 0.0 {
        assert -(n / 8.0) == (-k) as real;
        assert (-(n / 8.0)).Floor == -k;
      }
      assert q == k;
    }
  }

  /** Rounding twice is rounding once. */
  lemma Idempotent(n: real)
    ensures ToMultipleOf8(ToMultipleOf8(n)) == ToMultipleOf8(n)
  {
  }

  /** On non-negative integers this is `n - n % 8` with the usual
      remainder; common sides such as 1024 and 768 are kept. */
  lemma NonNegativeIntegers(n: int)
    requires n >= 0
    ensures ToMultipleOf8(n as real) == (n - n % 8) as real
    ensures ToMultipleOf8(1024.0) == 1024.0 && ToMultipleOf8(768.0) == 768.0
  {
    assert (n as real / 8.0).Floor == n / 8;
    assert (1024.0 / 8.0).Floor == 128;
    assert (768.0 / 8.0).Floor == 96;
  }

  /** A negative value rounds toward zero: -10 becomes -8, where a floored
      remainder would give -16. */
  lemma NegativeRoundsTowardZero()
    ensures ToMultipleOf8(-10.0) == -8.0
  {
    assert (10.0 / 8.0).Floor == 1;
  }
}
