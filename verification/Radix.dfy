/**
 Mixed-radix positions a * n + b with b < n: the arithmetic under every layout.
 */
module Radix {

  function Min(a: nat, b: nat): nat { if a <= b then a else b }

  function Mul(a: nat, b: nat): (r: nat)
    ensures r == a * b
  {
    Nonneg(a, b);
    a * b
  }

  function Quot(x: nat, n: nat): (r: nat)
    requires n > 0
    ensures r == x / n && x == r * n + x % n
  {
    Split(x, n);
    x / n
  }

  function Rem(x: nat, n: nat): (r: nat)
    requires n > 0
    ensures r == x % n && r < n
  {
    x % n
  }

  lemma Nonneg(a: nat, b: nat)
    ensures a * b >= 0
  {
  }

  lemma MulPositive(a: nat, b: nat)
    requires a > 0 && b > 0
    ensures a * b > 0
  {
  }

  lemma Monotone(a: nat, b: nat, n: nat)
    requires a <= b
    ensures a * n <= b * n
  {
    var k := b - a;
    assert b * n == a * n + k * n;
  }

  lemma Distribute(a: int, b: int, n: int)
    ensures (a + b) * n == a * n + b * n
  {
  }

  lemma Assoc(a: int, b: int, c: int)
    ensures (a * b) * c == a * (b * c)
  {
  }

  /** A position lies below the product of the two sizes. */
  lemma Less(a: nat, b: nat, m: nat, n: nat)
    requires a < m && b < n
    ensures a * n + b < m * n
  {
    Monotone(a + 1, m, n);
    Distribute(a, 1, n);
  }

  /** Two positions agree only when both digits do. */
  lemma Unique(a: nat, b: nat, a1: nat, b1: nat, n: nat)
    requires b < n && b1 < n && a * n + b == a1 * n + b1
    ensures a == a1 && b == b1
  {
    if a < a1 {
      Less(a, b, a1, n);
      assert false;
    }
    if a1 < a {
      Less(a1, b1, a, n);
      assert false;
    }
  }

  /** Division and remainder read the digits back. */
  lemma Digits(a: nat, b: nat, n: nat)
    requires b < n
    ensures (a * n + b) / n == a && (a * n + b) % n == b
  {
    var x := a * n + b;
    assert x == x / n * n + x % n;
    Unique(a, b, x / n, x % n, n);
  }

  lemma Split(x: nat, n: nat)
    requires n > 0
    ensures x == (x / n) * n + x % n && x % n < n
  {
  }

  /** The high digit of a number below m * n is below m. */
  lemma HighDigit(x: nat, m: nat, n: nat)
    requires n > 0 && x < m * n
    ensures x / n < m
  {
    Split(x, n);
    if x / n >= m {
      Monotone(m, x / n, n);
      assert false;
    }
  }

  /** Three digits, grouped either way. */
  lemma Regroup(a: nat, b: nat, c: nat, m: nat, n: nat)
    requires c < n
    ensures a * (m * n) + (b * n + c) == (a * m + b) * n + c
    ensures (a * (m * n) + (b * n + c)) % n == c
  {
    Assoc(a, m, n);
    Distribute(a * m, b, n);
    Digits(a * m + b, c, n);
  }

  /** A position below l * r, where r == m * n, read apart from the top. */
  lemma ThreeDigits(x: nat, l: nat, m: nat, n: nat, r: nat)
    requires m > 0 && n > 0 && r == m * n > 0 && x < l * r
    ensures x / r < l && x % r / n < m && x % n < n
    ensures x == (x / r * m + x % r / n) * n + x % n
    ensures x % r == x % r / n * n + x % n
  {
    HighDigit(x, l, r);
    Split(x, r);
    var (a, y) := (x / r, x % r);
    HighDigit(y, m, n);
    Split(y, n);
    Regroup(a, y / n, y % n, m, n);
  }
}
