/** Python's `round(x, 1)`, over exact reals: scale by ten, round to the
    nearest integer with ties going to the even neighbour, scale back. */
module Rounding {

  /** Nearest integer to `y`, ties to even (Python's `round(y)`). */
  function RoundHalfEven(y: real): (n: int)
    ensures y - 0.5 <= n as real <= y + 0.5
    ensures n as real - y == 0.5 || y - n as real == 0.5 ==> n % 2 == 0
  {
    var f := y.Floor;
    var frac := y - f as real;
    if frac < 0.5 then f
    else if frac > 0.5 then f + 1
    else if f % 2 == 0 then f
    else f + 1
  }

  /** `round(x, 1)`: the nearest multiple of 0.1, ties to an even tenth. */
  function Round1(x: real): (r: real)
    ensures x - 0.05 <= r <= x + 0.05
    ensures (r * 10.0).Floor as real == r * 10.0
  {
    var n := RoundHalfEven(x * 10.0);
    assert (n as real / 10.0) * 10.0 == n as real;
    n as real / 10.0
  }

  lemma RoundHalfEvenMonotone(y: real, z: real)
    requires y <= z
    ensures RoundHalfEven(y) <= RoundHalfEven(z)
  {
    var fy, fz := y.Floor, z.Floor;
    if fy < fz {
      assert RoundHalfEven(y) <= fy + 1 <= fz <= RoundHalfEven(z);
    }
  }

  /** Rounding never reverses an order between two values. */
  lemma Round1Monotone(x: real, y: real)
    requires x <= y
    ensures Round1(x) <= Round1(y)
  {
    RoundHalfEvenMonotone(x * 10.0, y * 10.0);
  }

  /** Values more than one tenth apart stay strictly ordered after rounding. */
  lemma Round1Separates(x: real, y: real)
    requires x + 0.1 < y
    ensures Round1(x) < Round1(y)
  {
  }

  /** Rounding maps the score range [0, 100] into itself. */
  lemma Round1InScoreRange(x: real)
    requires 0.0 <= x <= 100.0
    ensures 0.0 <= Round1(x) <= 100.0
  {
    var n := RoundHalfEven(x * 10.0);
    assert -0.5 <= n as real <= 1000.5;
    assert 0 <= n <= 1000;
  }
}
