/** The JavaScript number operations the dashboard uses to format values, stated over
    exact rationals (`real`) instead of IEEE doubles. A rounded value is returned as an
    integer count of units of the last displayed decimal place (tenths, hundredths). */
module Rounding {

  /** `Math.round(x)`: the nearest integer, halves rounded toward +infinity. */
  function Round(x: real): (r: int)
    ensures r as real - 0.5 <= x < r as real + 0.5
  {
    (x + 0.5).Floor
  }

  /** `Math.floor(x)`: the greatest integer not above `x`. */
  function Floor(x: real): (r: int)
    ensures r as real <= x < r as real + 1.0
  {
    x.Floor
  }

  /** 10 to the power `n`. */
  function Pow10(n: nat): (r: nat)
    ensures r >= 1
  {
    if n == 0 then 1 else 10 * Pow10(n - 1)
  }

  /** The number that `x.toFixed(digits)` prints, in units of 10^-digits: the magnitude
      is rounded to the nearest unit with halves going up, then the sign is put back,
      so halves go away from zero. */
  function ToFixedUnits(x: real, digits: nat): (r: int)
    ensures x >= 0.0 ==> r as real - 0.5 <= x * (Pow10(digits) as real) < r as real + 0.5
    ensures x < 0.0 ==> r as real - 0.5 < x * (Pow10(digits) as real) <= r as real + 0.5
    ensures x >= 0.0 ==> r >= 0
    ensures x <= 0.0 ==> r <= 0
  {
    if x >= 0.0 then Round(x * (Pow10(digits) as real)) else -Round(-x * (Pow10(digits) as real))
  }

  /** `toFixed` is symmetric about zero (it is not `Math.round`, which is not). */
  lemma ToFixedOdd(x: real, digits: nat)
    ensures ToFixedUnits(-x, digits) == -ToFixedUnits(x, digits)
  {
  }

  /** A population count `e` in tenths of a billion, with halves rounded up, is the
      integer quotient `(e + 5 * 10^7) div 10^8`: what `Math.round((e / 1e9) * 10)`
      computes, without reals. */
  lemma RoundTenthsOfBillion(e: int)
    ensures Round((e as real / 1000000000.0) * 10.0) == (e + 50000000) / 100000000
  {
    var q := (e + 50000000) / 100000000;
    var m := (e + 50000000) % 100000000;
    assert e + 50000000 == q * 100000000 + m && 0 <= m < 100000000;
    var x := (e as real / 1000000000.0) * 10.0;
    assert x == e as real / 100000000.0;
    assert x + 0.5 == q as real + m as real / 100000000.0;
    var r := Round(x);
    assert r as real - 0.5 <= x < r as real + 0.5;
    assert q as real - 0.5 <= x < q as real + 0.5;
  }

  /** The same count printed with `(e / 1e9).toFixed(1)`: for a non-negative count it is
      the same integer quotient. */
  lemma ToFixedTenthsOfBillion(e: int)
    requires e >= 0
    ensures ToFixedUnits(e as real / 1000000000.0, 1) == (e + 50000000) / 100000000
  {
    var x := e as real / 1000000000.0;
    assert Pow10(1) == 10;
    assert ToFixedUnits(x, 1) == Round(x * 10.0);
    RoundTenthsOfBillion(e);
  }
}
