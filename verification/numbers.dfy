/**
 * Integer stand-ins for the floating-point expressions of the components:
 * `Math.round(a / b)` and `Math.ceil(a / b)` for a positive integer divisor.
 */
module Numbers {

  /**
   * `Math.round(a / b)`: the integer nearest to a/b, halves rounded up
   * (towards positive infinity, as `Math.round` does for negative values too).
   */
  function RoundDiv(a: int, b: int): (r: int)
    requires b > 0
    ensures b * (2 * r - 1) <= 2 * a < b * (2 * r + 1)
  {
    var q := (2 * a + b) / (2 * b);
    var m := (2 * a + b) % (2 * b);
    assert 2 * a + b == 2 * b * q + m && 0 <= m < 2 * b;
    assert b * (2 * q - 1) == 2 * b * q - b;
    assert b * (2 * q + 1) == 2 * b * q + b;
    q
  }

  /** `Math.ceil(a / b)`: the least integer not below a/b. */
  function CeilDiv(a: int, b: int): (r: int)
    requires b > 0
    ensures b * (r - 1) < a <= b * r
  {
    var q := (-a) / b;
    var m := (-a) % b;
    assert -a == b * q + m && 0 <= m < b;
    assert b * (-q - 1) == -(b * q) - b;
    -q
  }

  /** Multiplying by a positive factor keeps the order. */
  lemma MulMonotone(b: int, x: int, y: int)
    requires b > 0 && x <= y
    ensures b * x <= b * y
  {
    assert b * y - b * x == b * (y - x);
  }

  /** The rounded quotient stays within bounds that hold of the exact quotient. */
  lemma RoundDivBounds(a: int, b: int, lo: int, hi: int)
    requires b > 0 && b * lo <= a <= b * hi
    ensures lo <= RoundDiv(a, b) <= hi
  {
    var r := RoundDiv(a, b);
    if r < lo {
      assert b * (2 * lo - 1) == 2 * (b * lo) - b;
      MulMonotone(b, 2 * r + 1, 2 * lo - 1);
      assert false;
    }
    if r > hi {
      assert b * (2 * hi + 1) == 2 * (b * hi) + b;
      MulMonotone(b, 2 * hi + 1, 2 * r - 1);
      assert false;
    }
  }

  /** An exact quotient is its own rounding. */
  lemma RoundDivExact(a: int, b: int, k: int)
    requires b > 0 && a == b * k
    ensures RoundDiv(a, b) == k
  {
    RoundDivBounds(a, b, k, k);
  }
}
