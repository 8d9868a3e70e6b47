/** The few JavaScript number behaviours the dashboard relies on: values that
    may not be finite, `Number.isFinite`, and `Math.round`. Finite values are
    exact reals; IEEE-754 rounding is not modelled. */
module JsNumbers {

  datatype Number = Finite(value: real) | NaN | Infinity(negative: bool)

  predicate IsFinite(x: Number)
  {
    x.Finite?
  }

  /** `Number.isFinite(x) ? x : 0`. */
  function FiniteOrZero(x: Number): (r: real)
    ensures IsFinite(x) ==> r == x.value
    ensures !IsFinite(x) ==> r == 0.0
  {
    if x.Finite? then x.value else 0.0
  }

  /** `Math.round`: the nearest integer, halves rounding up. */
  function Round(x: real): (r: int)
    ensures r as real - 0.5 <= x < r as real + 0.5
  {
    (x + 0.5).Floor
  }

  function Abs(x: real): (r: real)
    ensures r >= 0.0 && (r == x || r == -x)
  {
    if x < 0.0 then -x else x
  }

  /** `Math.round` is the only integer within half a unit below and strictly
      less than half a unit above, so rounding an integer gives it back, and
      rounding never reverses an order. */
  lemma RoundUnique(x: real, n: int)
    requires n as real - 0.5 <= x < n as real + 0.5
    ensures Round(x) == n
  {
    var r := Round(x);
    assert r as real - 0.5 <= x < r as real + 0.5;
    assert (r - n) as real < 1.0 && (n - r) as real < 1.0;
  }

  lemma RoundMonotone(x: real, y: real)
    requires x <= y
    ensures Round(x) <= Round(y)
  {
    var rx, ry := Round(x), Round(y);
    assert rx as real - 0.5 <= x <= y < ry as real + 0.5;
    assert (rx - ry) as real < 1.0;
  }

  /** A non-negative value rounds to a non-negative integer. */
  lemma RoundNonNegative(x: real)
    requires 0.0 <= x
    ensures 0 <= Round(x)
  {
    var r := Round(x);
    assert -0.5 < r as real + 0.5;
  }
}
