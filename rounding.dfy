// gov/util/roundingutil/rounding.go: rounding a frame size to a multiple,
// away from zero.
module Rounding {

  function Abs(n: int): nat { if n < 0 then -n else n }

  /** Go's `%` on ints: truncated division, so the remainder takes the sign
      of the dividend (Dafny's own `%` is Euclidean and never negative). */
  function GoRem(x: int, n: int): int
    requires n != 0
  {
    if x >= 0 then x % Abs(n) else -((-x) % Abs(n))
  }

  /** `GoRem` has the sign of the dividend, a magnitude below the divisor's,
      and leaves a multiple of the divisor behind. */
  lemma GoRemIsTruncated(x: int, n: int)
    requires n != 0
    ensures x >= 0 ==> 0 <= GoRem(x, n) < Abs(n)
    ensures x < 0 ==> -(Abs(n) as int) < GoRem(x, n) <= 0
    ensures Abs(x) == Abs(x) / Abs(n) * Abs(n) + Abs(GoRem(x, n))
  {
  }

  /** RoundAwayFromZero(n, x) from rounding.go:3-11. */
  function RoundAwayFromZero(n: int, x: int): int
    requires n != 0
  {
    if GoRem(x, n) == 0 then x
    else if x < 0 then x - n - GoRem(x, n)
    else x + n - GoRem(x, n)
  }

  /** For a positive step, the result is the multiple of `n` next to `x` on
      the side away from zero: within one step of `x`, and never nearer
      to zero than `x`. */
  lemma RoundAwayFromZeroIsNextMultiple(n: int, x: int)
    requires n > 0
    ensures RoundAwayFromZero(n, x) % n == 0
    ensures x >= 0 ==> x <= RoundAwayFromZero(n, x) < x + n
    ensures x < 0 ==> x - n < RoundAwayFromZero(n, x) <= x
    ensures Abs(RoundAwayFromZero(n, x)) >= Abs(x)
  {
    GoRemIsTruncated(x, n);
    var r := RoundAwayFromZero(n, x);
    var a := Abs(x);
    var q := a / n;
    if x >= 0 {
      if GoRem(x, n) == 0 {
        assert r == q * n;
        MulIsMultiple(q, n);
      } else {
        assert r == (q + 1) * n;
        MulIsMultiple(q + 1, n);
      }
    } else {
      if GoRem(x, n) == 0 {
        assert r == (-q) * n;
        MulIsMultiple(-q, n);
      } else {
        assert r == (-q - 1) * n;
        MulIsMultiple(-q - 1, n);
      }
    }
  }

  /** No multiple of `n` lies strictly between `x` and the rounded value:
      the rounding is to the NEAREST multiple away from zero. */
  lemma RoundAwayFromZeroIsNearest(n: int, x: int, m: int)
    requires n > 0 && m % n == 0
    ensures x >= 0 && m >= x ==> m >= RoundAwayFromZero(n, x)
    ensures x < 0 && m <= x ==> m <= RoundAwayFromZero(n, x)
  {
    RoundAwayFromZeroIsNextMultiple(n, x);
    var r := RoundAwayFromZero(n, x);
    if x >= 0 && m >= x && m < r {
      MultiplesApart(r, m, n);
    }
    if x < 0 && m <= x && m > r {
      MultiplesApart(m, r, n);
    }
  }

  /** The values the fix-up pass sees for 16-byte frames. */
  lemma RoundAwayFromZeroExamples()
    ensures RoundAwayFromZero(16, 0) == 0
    ensures RoundAwayFromZero(16, 4) == 16
    ensures RoundAwayFromZero(16, 16) == 16
    ensures RoundAwayFromZero(16, 20) == 32
    ensures RoundAwayFromZero(16, -4) == -16
  {
  }

  lemma MulNonneg(a: int, b: int)
    requires a >= 0 && b >= 0
    ensures a * b >= 0
  {
  }

  lemma MulIsMultiple(k: int, n: int)
    requires n > 0
    ensures (k * n) % n == 0
  {
    var m := k * n;
    var d := k - m / n;
    assert d * n == k * n - (m / n) * n;
    assert d * n == m % n;
    if d >= 1 {
      MulNonneg(d - 1, n);
    } else if d <= -1 {
      MulNonneg(-d - 1, n);
    }
  }

  lemma MultiplesApart(hi: int, lo: int, n: int)
    requires n > 0 && hi % n == 0 && lo % n == 0 && lo < hi
    ensures hi - lo >= n
  {
    var a, b := hi / n, lo / n;
    assert hi == a * n && lo == b * n;
    assert hi - lo == (a - b) * n;
    if a - b <= 0 {
      MulNonneg(b - a, n);
    } else {
      MulNonneg(a - b - 1, n);
      assert (a - b) * n == (a - b - 1) * n + n;
    }
  }
}
