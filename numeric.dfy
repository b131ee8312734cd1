/** Integer helpers with Go's semantics: `/` on Go integers truncates toward zero, and
    `int(x)` of a float64 truncates toward zero as well. */
module Numeric {

  function Min(a: int, b: int): (r: int)
    ensures r <= a && r <= b && (r == a || r == b)
  {
    if a <= b then a else b
  }

  function Max(a: int, b: int): (r: int)
    ensures r >= a && r >= b && (r == a || r == b)
  {
    if a >= b then a else b
  }

  /** Go's integer division `a / b` for a positive divisor: the quotient truncated toward zero. */
  function TruncDiv(a: int, b: int): (q: int)
    requires b > 0
    ensures a >= 0 ==> q == a / b && q >= 0
    ensures a < 0 ==> q <= 0 && -q == (-a) / b
  {
    if a >= 0 then
      NonNegQuotient(a, b);
      a / b
    else
      NonNegQuotient(-a, b);
      -((-a) / b)
  }

  lemma NonNegQuotient(n: nat, b: int)
    requires b > 0
    ensures n / b >= 0
  {
  }

  /** Go's `int(x)` conversion of a float: truncation toward zero (no overflow, no NaN). */
  function Trunc(x: real): (n: int)
    ensures x >= 0.0 ==> n == x.Floor
    ensures x >= 0.0 ==> n as real <= x < n as real + 1.0
    ensures x < 0.0 ==> x <= n as real <= 0.0 && n as real - 1.0 < x
  {
    if x >= 0.0 then x.Floor else -((-x).Floor)
  }

  /** Truncating division does not move the quotient down when the dividend grows. */
  lemma TruncDivMonotone(a: int, a': int, b: int)
    requires b > 0 && a <= a'
    ensures TruncDiv(a, b) <= TruncDiv(a', b)
  {
    if 0 <= a {
      DivMonotone(a, a', b);
    } else if a' < 0 {
      DivMonotone(-a', -a, b);
    }
  }

  lemma MulMonotone(x: int, y: int, b: int)
    requires b > 0 && x <= y
    ensures x * b <= y * b
  {
  }

  lemma DivMonotone(a: nat, a': nat, b: int)
    requires b > 0 && a <= a'
    ensures a / b <= a' / b
  {
    if a / b > a' / b {
      MulMonotone(a' / b + 1, a / b, b);
    }
  }
}
