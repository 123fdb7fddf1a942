/** Amounts of the two currencies (gpu_broker/money.py).

    A stored amount is a whole number of quanta: cents, or hundredths of a GPU-hour.
    An amount that has not been rounded yet is a `real` number of quanta. */
module Money {

  datatype Currency = Usd | GpuHour

  lemma CurrencyCases(c: Currency)
    ensures c == Usd || c == GpuHour
  {
    match c
    case Usd =>
    case GpuHour =>
  }

  /** Half-up rounding to the quantum; ties go away from zero. */
  function Quantize(x: real): (q: int)
    ensures 0.0 <= x ==> q as real - 0.5 <= x < q as real + 0.5
    ensures x < 0.0 ==> q as real - 0.5 < x <= q as real + 0.5
  {
    if 0.0 <= x then (x + 0.5).Floor else -(0.5 - x).Floor
  }

  /** The nearest whole number of quanta, ties upward. It differs from `Quantize` only below zero. */
  function Nearest(x: real): (n: int)
    ensures n as real - 0.5 <= x < n as real + 0.5
    ensures 0.0 <= x ==> n == Quantize(x)
  {
    (x + 0.5).Floor
  }

  /** What is left of an amount after whole quanta are taken off, if anything is, rounds as the amount does. */
  lemma NearestMinusWhole(x: real, n: int)
    requires 0.0 <= x - n as real
    ensures Quantize(x - n as real) == Nearest(x) - n
  {
  }

  lemma QuantizeMonotone(x: real, y: real)
    requires x <= y
    ensures Quantize(x) <= Quantize(y)
  {
    // Two integers less than one apart in the wrong order would have to be equal.
    assert Quantize(x) as real < Quantize(y) as real + 1.0 || x == y;
  }

  /** Rounding a whole amount changes nothing, so rounding twice is rounding once. */
  lemma QuantizeWhole(n: int)
    ensures Quantize(n as real) == n
  {
  }

  /** Taking whole quanta off before or after rounding is the same,
      as long as the amount stays at or above zero. */
  lemma QuantizeMinusWhole(x: real, n: int)
    requires 0.0 <= x && 0.0 <= x - n as real
    ensures Quantize(x - n as real) == Quantize(x) - n
  {
  }

  /** A rounded amount reaches a positive whole target exactly when
      the amount itself is no more than half a quantum short of it. */
  lemma QuantizeReaches(x: real, target: int)
    requires 0.0 <= x && 0 < target
    ensures target <= Quantize(x) <==> target as real - 0.5 <= x
  {
    if target <= Quantize(x) {
      assert target as real <= Quantize(x) as real;
    } else {
      assert Quantize(x) as real + 1.0 <= target as real;
    }
  }
}
