/**
  Position-by-position operations on value arrays: the vectorised numpy
  expressions (`x + y`, `x * c`, `1 / x`, `x ** n`) that the TimeSerie
  operators apply to their `y_values`. Values are exact reals; see
  the README for what this leaves out of numpy's float semantics.
 */
module Elementwise {

  /** `x + y` on two arrays of the same length. */
  function AddValues(x: seq<real>, y: seq<real>): seq<real>
    requires |x| == |y|
  {
    seq(|x|, i requires 0 <= i < |x| => x[i] + y[i])
  }

  /** `x * y` on two arrays of the same length. */
  function MulValues(x: seq<real>, y: seq<real>): seq<real>
    requires |x| == |y|
  {
    seq(|x|, i requires 0 <= i < |x| => x[i] * y[i])
  }

  /** `x + c`: the scalar broadcast over every position. */
  function AddScalar(x: seq<real>, c: real): seq<real>
  {
    seq(|x|, i requires 0 <= i < |x| => x[i] + c)
  }

  /** `x * c`: the scalar broadcast over every position. */
  function MulScalar(x: seq<real>, c: real): seq<real>
  {
    seq(|x|, i requires 0 <= i < |x| => x[i] * c)
  }

  /** No position holds zero, so `1 / x` and negative powers stay finite. */
  predicate NonZero(x: seq<real>)
  {
    forall i :: 0 <= i < |x| ==> x[i] != 0.0
  }

  /** `1 / x`, position by position. */
  function Reciprocal(x: seq<real>): seq<real>
    requires NonZero(x)
  {
    seq(|x|, i requires 0 <= i < |x| => 1.0 / x[i])
  }

  /** `x ** n` for a natural exponent, by repeated multiplication. */
  function PowNat(x: real, n: nat): (r: real)
    ensures x != 0.0 ==> r != 0.0
    ensures x == 1.0 ==> r == 1.0
  {
    if n == 0 then 1.0 else x * PowNat(x, n - 1)
  }

  /** `x ** n` for an integer exponent; a negative one is the reciprocal of the positive power. */
  function IntPower(x: real, n: int): real
    requires n >= 0 || x != 0.0
  {
    if n >= 0 then PowNat(x, n) else 1.0 / PowNat(x, -n)
  }

  /** `x ** n`: an integer exponent broadcast over every position. */
  function PowScalar(x: seq<real>, n: int): seq<real>
    requires n >= 0 || NonZero(x)
  {
    seq(|x|, i requires 0 <= i < |x| => IntPower(x[i], n))
  }

  /** Exponents add: `x ** (m + n) == x ** m * x ** n` for natural exponents. */
  lemma {:induction false} PowNatAdd(x: real, m: nat, n: nat)
    ensures PowNat(x, m + n) == PowNat(x, m) * PowNat(x, n)
  {
    if m > 0 {
      PowNatAdd(x, m - 1, n);
      assert PowNat(x, m + n) == x * PowNat(x, (m - 1) + n);
    }
  }

  /** A negative exponent undoes the positive one: `x ** -n * x ** n == 1`. */
  lemma NegativePowerInverts(x: real, n: nat)
    requires x != 0.0
    ensures IntPower(x, -(n as int)) * IntPower(x, n) == 1.0
  {
  }
}
