/** Facts about products, quotients and mixed-radix numbers that the solver needs spelled out. */
module Arithmetic {

  lemma {:induction false} MulLe(a: int, b: int, c: int)
    requires a <= b && 0 <= c
    ensures a * c <= b * c
  {
  }

  /** A quotient is fixed by the interval it names. */
  lemma {:induction false} DivUnique(x: int, d: int, q: int)
    requires d > 0 && q * d <= x < q * d + d
    ensures x / d == q && x % d == x - q * d
  {
    var r := x / d;
    assert x == r * d + x % d;
    assert (r + 1) * d == r * d + d && (q + 1) * d == q * d + d;
    if r < q {
      MulLe(r + 1, q, d);
    } else if r > q {
      MulLe(q + 1, r, d);
    }
  }

  /** Splitting a two-digit number gives its digits back. */
  lemma {:induction false} MixedRadix(hi: int, lo: int, base: int)
    requires base > 0 && 0 <= lo < base
    ensures (hi * base + lo) / base == hi && (hi * base + lo) % base == lo
  {
    DivUnique(hi * base + lo, base, hi);
  }

  /** Two-digit numbers compare digit by digit. */
  lemma {:induction false} DigitsBound(hi: int, lo: int, his: int, base: int)
    requires 0 <= hi < his && 0 <= lo < base
    ensures 0 <= hi * base + lo < his * base
  {
    MulLe(0, hi, base);
    MulLe(hi + 1, his, base);
    assert (hi + 1) * base == hi * base + base;
  }

  /** The quotient of a bounded number is bounded. */
  lemma {:induction false} DivBounds(x: int, n: int, d: int)
    requires d > 0 && 0 <= x < n * d
    ensures 0 <= x / d < n && x == x / d * d + x % d
  {
    var q := x / d;
    assert x == q * d + x % d && 0 <= x % d < d;
    if q >= n {
      MulLe(n, q, d);
    } else if q < 0 {
      MulLe(q, -1, d);
    }
  }

  /** A number in mixed radix determines its two digits. */
  lemma {:induction false} SameDigits(hi: int, lo: int, hi': int, lo': int, base: int)
    requires base > 0 && 0 <= lo < base && 0 <= lo' < base
    requires hi * base + lo == hi' * base + lo'
    ensures hi == hi' && lo == lo'
  {
    MixedRadix(hi, lo, base);
    MixedRadix(hi', lo', base);
  }

  lemma {:induction false} DivPositive(x: int, d: int)
    requires d > 0
    ensures x / d >= 1 <==> x >= d
  {
    var q := x / d;
    assert x == q * d + x % d;
    if q >= 1 {
      MulLe(1, q, d);
    } else {
      MulLe(q, 0, d);
    }
  }
}
