/** The C library's `round` on exact rationals: nearest integer, halves away from zero. */
module Rounding {
  function Round(x: real): int {
    if x >= 0.0 then (x + 0.5).Floor else -((0.5 - x).Floor)
  }

  /** `Round` picks the only integer within the half-open half-unit around `x`. */
  lemma RoundIs(x: real, n: int)
    requires x >= 0.0
    requires n as real - 0.5 <= x < n as real + 0.5
    ensures Round(x) == n
  {
  }

  lemma RoundMonotone(x: real, y: real)
    requires x <= y
    ensures Round(x) <= Round(y)
  {
  }

  lemma RoundShift(x: real, n: nat)
    requires x >= 0.0
    ensures Round(x + n as real) == Round(x) + n
  {
  }
}
