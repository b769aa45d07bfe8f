/**
  The floating-point results the metrics report, over the reals.

  Every getter of the library returns NAN when it has too few samples;
  `Reading` makes that sentinel explicit. The only division by zero that
  can arise in the core (over the reals) is 0/0, which IEEE arithmetic
  turns into NAN; `Div` models exactly that case and demands a proof that
  a zero divisor comes with a zero dividend.
 */
module Numeric {

  /** A reported value: a real number, or NAN. */
  datatype Reading = NaN | Num(value: real)

  /** IEEE division restricted to the cases the core can produce. */
  function Div(a: real, b: real): (r: Reading)
    requires b != 0.0 || a == 0.0
    ensures r.Num? <==> b != 0.0
    ensures r.Num? ==> r.value * b == a
  {
    if b == 0.0 then NaN else Num(a / b)
  }
}
