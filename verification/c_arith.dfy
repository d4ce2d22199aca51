/**
 * Integer arithmetic as the AVR C++ compiler performs it, on mathematical
 * integers: division truncates toward zero, and Arduino's `constrain` clamps.
 */
module CArith {

  function Abs(x: int): (r: nat)
    ensures r == x || r == -x
  {
    if x < 0 then -x else x
  }

  /** C integer division (section 6.5.5 of ISO C11): the quotient is truncated toward zero. */
  function TruncDiv(a: int, b: int): int
    requires b != 0
  {
    if a >= 0 then a / b else -((-a) / b)
  }

  /** For a non-negative dividend C division agrees with Dafny's Euclidean division. */
  lemma TruncDivNonNegative(a: int, b: int)
    requires a >= 0 && b != 0
    ensures TruncDiv(a, b) == a / b
  {
  }

  /** Truncation is symmetric: negating the dividend negates the quotient. */
  lemma TruncDivOdd(a: int, b: int)
    requires b != 0
    ensures TruncDiv(-a, b) == -TruncDiv(a, b)
  {
  }

  /**
   * The defining property of C division: the remainder a - q*b is smaller than |b|
   * in magnitude and has the sign of the dividend (or is zero).
   */
  lemma TruncDivRemainder(a: int, b: int)
    requires b != 0
    ensures var r := a - TruncDiv(a, b) * b;
      Abs(r) < Abs(b) && (r == 0 || (r > 0 <==> a > 0))
  {
    var m := if a >= 0 then a else -a;
    var q := m / b;
    assert m == q * b + m % b;
    assert 0 <= m % b < Abs(b);
    if a >= 0 {
      assert TruncDiv(a, b) == q;
      assert TruncDiv(a, b) * b == q * b;
      assert a - TruncDiv(a, b) * b == m % b;
    } else {
      assert TruncDiv(a, b) == -q;
      assert TruncDiv(a, b) * b == -(q * b);
      assert a - TruncDiv(a, b) * b == -(m % b);
    }
  }

  /** A positive divisor gives a monotone quotient. */
  lemma TruncDivMonotone(a: int, a': int, b: int)
    requires b > 0 && a <= a'
    ensures TruncDiv(a, b) <= TruncDiv(a', b)
  {
    if a >= 0 {
      DivMonotone(a, a', b);
    } else if a' >= 0 {
    } else {
      DivMonotone(-a', -a, b);
    }
  }

  lemma DivMonotone(a: int, a': int, b: int)
    requires 0 <= a <= a' && b > 0
    ensures a / b <= a' / b
  {
    var q, q' := a / b, a' / b;
    assert a == q * b + a % b;
    assert a' == q' * b + a' % b;
    assert (q - q' - 1) * b < 0;
  }

  /** Multiplying by a positive number keeps the order, in both directions. */
  lemma MulCancel(x: int, y: int, n: int)
    requires n > 0
    ensures x * n <= y * n <==> x <= y
  {
    assert y * n - x * n == (y - x) * n;
    if x <= y {
      assert (y - x) * n >= 0;
    } else {
      assert (x - y) * n > 0;
    }
  }

  /** Products of non-negative factors grow with each factor. */
  lemma MulMonotone(a: int, b: int, c: int, d: int)
    requires 0 <= a <= b && 0 <= c <= d
    ensures 0 <= a * c <= b * d
  {
    assert a * c <= b * c by {
      assert b * c - a * c == (b - a) * c;
    }
    assert b * c <= b * d by {
      assert b * d - b * c == b * (d - c);
    }
  }

  /** Arduino's `constrain(x, lo, hi)` macro. */
  function Constrain(x: int, lo: int, hi: int): (r: int)
    ensures lo <= hi ==> lo <= r <= hi
    ensures lo <= x <= hi ==> r == x
    ensures x < lo ==> r == lo
    ensures lo <= hi && x > hi ==> r == hi
  {
    if x < lo then lo else if x > hi then hi else x
  }
}
