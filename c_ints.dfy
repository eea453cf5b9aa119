/**
 * C++ integer division and remainder, which truncate toward zero, next to
 * Dafny's, which are Euclidean.  The two agree on non-negative operands.
 */
module CInts {

  /** `a / b` in C++. */
  function TruncDiv(a: int, b: int): int
    requires b > 0
  {
    if a >= 0 then a / b else -((-a) / b)
  }

  /** `a % b` in C++. */
  function TruncMod(a: int, b: int): int
    requires b > 0
  {
    if a >= 0 then a % b else -((-a) % b)
  }

  /**
   * The identity that defines C++'s remainder, and the sign rule: the
   * remainder has the sign of the dividend and is smaller than the divisor.
   */
  lemma TruncDivMod(a: int, b: int)
    requires b > 0
    ensures a == b * TruncDiv(a, b) + TruncMod(a, b)
    ensures a >= 0 ==> 0 <= TruncMod(a, b) < b && TruncDiv(a, b) == a / b && TruncMod(a, b) == a % b
    ensures a < 0 ==> -b < TruncMod(a, b) <= 0
  {
    if a < 0 {
      var q := (-a) / b;
      assert -a == b * q + (-a) % b;
      assert b * (-q) == -(b * q);
    }
  }
}
