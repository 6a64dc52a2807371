/** Exact amounts are reals; a stored amount is an integer count of 1e-10 or 1e-8 currency units, the two
    precisions the ledger's columns keep. */
module Money {

  const UNITS_10: real := 10000000000.0
  const UNITS_8: real := 100000000.0

  /** Ten whole digits and ten fraction digits, in 1e-10 units. */
  const DECIMAL_10_10: int := 100000000000000000000

  /** The stored form of `x` with `scale` units to one: the nearest integer, halves away from zero. */
  function Fixed(x: real, scale: real): int {
    if x >= 0.0 then (x * scale + 0.5).Floor else -((-x * scale + 0.5).Floor)
  }

  /** The value an amount of ten decimal places stands for. */
  function Value10(n: int): real {
    n as real / UNITS_10
  }

  function To10(x: real): int {
    Fixed(x, UNITS_10)
  }

  /** An amount of ten decimal places rewritten with eight, computed on the stored integers. */
  function To8(n: int): int {
    if n >= 0 then (n + 50) / 100 else -((-n + 50) / 100)
  }

  lemma FixedMonotone(x: real, y: real, scale: real)
    requires x <= y && scale > 0.0
    ensures Fixed(x, scale) <= Fixed(y, scale)
  {
    assert x * scale <= y * scale;
    assert -y * scale <= -x * scale;
  }

  /** Rounding is to the nearest stored amount: it never moves a value by more than half a unit. */
  lemma FixedNearest(x: real, scale: real)
    requires scale > 0.0
    ensures -0.5 <= Fixed(x, scale) as real - x * scale <= 0.5
  {
    assert (-x) * scale == -(x * scale);
  }

  /** A value that already has ten places is stored exactly, even after multiplying by a count. */
  lemma To10Exact(n: int, k: int)
    ensures To10(Value10(n) * k as real) == n * k
  {
    assert Value10(n) * k as real * UNITS_10 == (n * k) as real by {
      assert Value10(n) * UNITS_10 == n as real;
      assert (Value10(n) * k as real) * UNITS_10 == (Value10(n) * UNITS_10) * k as real;
    }
    FixedNearest(Value10(n) * k as real, UNITS_10);
  }

  /** The integer form above is the rounding of the exact value. */
  lemma To8IsRounded(n: int)
    ensures To8(n) == Fixed(Value10(n), UNITS_8)
  {
    var m := if n >= 0 then n else -n;
    assert Value10(m) * UNITS_8 == m as real / 100.0;
    assert m as real / 100.0 + 0.5 == ((m + 50) / 100) as real + ((m + 50) % 100) as real / 100.0;
    assert (Value10(m) * UNITS_8 + 0.5).Floor == (m + 50) / 100;
  }

  lemma To8Monotone(m: int, n: int)
    requires m <= n
    ensures To8(m) <= To8(n)
  {
  }
}
