/**
  Laws relating the TimeSerie operators to each other: the commutativity
  and delegation of `+` and `*`, the inverses `-` and `/`, the identity
  laws, the integer powers, and where `-` and `/` part ways with `+`
  and `*` on the index check.
 */
module TimeSerieLaws {
  import opened Elementwise
  import opened TimeSeries

  /** The series on `index` whose every value is `c`. */
  function Filled(index: seq<int>, c: real): TimeSerie
  {
    Serie(index, seq(|index|, _ => c))
  }

  // ---------------------------------------------------------------------
  // + and *

  /** `a + b == b + a`, errors included: both sides check the same two indexes. */
  lemma AddCommutes(a: TimeSerie, b: TimeSerie)
    ensures Add(a, Series(b)) == Add(b, Series(a))
  {
    if a.index == b.index {
      var ab, ba := Add(a, Series(b)).value, Add(b, Series(a)).value;
      assert ab.values == ba.values by {
        forall i | 0 <= i < |a.values| ensures ab.values[i] == ba.values[i] { }
      }
    }
  }

  /** `a * b == b * a`, errors included. */
  lemma MulCommutes(a: TimeSerie, b: TimeSerie)
    ensures Mul(a, Series(b)) == Mul(b, Series(a))
  {
    if a.index == b.index {
      var ab, ba := Mul(a, Series(b)).value, Mul(b, Series(a)).value;
      assert ab.values == ba.values by {
        forall i | 0 <= i < |a.values| ensures ab.values[i] == ba.values[i] { }
      }
    }
  }

  /** Adding a series that holds `c` everywhere on the same index is adding the scalar `c`. */
  lemma AddFilledIsAddScalar(a: TimeSerie, c: real)
    ensures Add(a, Series(Filled(a.index, c))) == Add(a, RealScalar(c))
  {
    var bySeries, byScalar := Add(a, Series(Filled(a.index, c))).value, Add(a, RealScalar(c)).value;
    assert bySeries.values == byScalar.values;
  }

  // ---------------------------------------------------------------------
  // - and /

  /** Subtracting a number undoes adding it: `(a + c) - c == a`. */
  lemma SubUndoesAdd(a: TimeSerie, c: Operand)
    requires c.IsNumber()
    ensures Sub(Add(a, c).value, c) == Ok(a)
  {
    var sum := Add(a, c).value;
    var back := Sub(sum, c).value;
    assert back.values == a.values;
  }

  /** `(a + c) - a` holds `c` at every position of `a`'s index. */
  lemma AddThenSubSelf(a: TimeSerie, c: Operand)
    requires c.IsNumber()
    ensures Sub(Add(a, c).value, Series(a)) == Ok(Filled(a.index, c.Number()))
  {
    var sum := Add(a, c).value;
    var diff := Sub(sum, Series(a)).value;
    assert diff.values == Filled(a.index, c.Number()).values;
  }

  /** `a - a` is zero everywhere. */
  lemma SubSelfIsZero(a: TimeSerie)
    ensures Sub(a, Series(a)) == Ok(Filled(a.index, 0.0))
  {
    var diff := Sub(a, Series(a)).value;
    assert diff.values == Filled(a.index, 0.0).values;
  }

  /**
    `-` never compares indexes: two series of one length and different
    indexes subtract, on the left operand's index, where `+` raises.
   */
  lemma SubSkipsIndexCheck(a: TimeSerie, b: TimeSerie)
    requires |a.index| == |b.index| && a.index != b.index
    ensures Add(a, Series(b)) == Err(IndexMismatch)
    ensures Sub(a, Series(b)).Ok? && Sub(a, Series(b)).value.index == a.index
  {
  }

  /** Dividing by a nonzero number undoes multiplying by it: `(a * c) / c == a`. */
  lemma DivUndoesMul(a: TimeSerie, c: Operand)
    requires c.IsNumber() && c.Number() != 0.0
    ensures TrueDiv(Mul(a, c).value, c) == Ok(a)
  {
    var product := Mul(a, c).value;
    var back := TrueDiv(product, c).value;
    forall i | 0 <= i < |a.values| ensures back.values[i] == a.values[i] {
      calc {
        back.values[i];
        product.values[i] / c.Number();
        (a.values[i] * c.Number()) / c.Number();
        a.values[i];
      }
    }
    assert back.values == a.values;
  }

  /** `a / b == (1 / b) * a` for two series on one index. */
  lemma DivIsReciprocalTimes(a: TimeSerie, b: TimeSerie)
    requires a.index == b.index && NonZero(b.values)
    ensures TrueDiv(a, Series(b)) == Mul(RTrueDiv(IntScalar(1), b).value, Series(a))
  {
    var quotient := TrueDiv(a, Series(b)).value;
    var inverse := RTrueDiv(IntScalar(1), b).value;
    var product := Mul(inverse, Series(a)).value;
    forall i | 0 <= i < |a.values| ensures quotient.values[i] == product.values[i] {
      assert quotient.values[i] == a.values[i] / b.values[i];
      assert product.values[i] == (1.0 / b.values[i]) * a.values[i];
    }
    assert quotient.values == product.values;
  }

  /**
    `/` never compares indexes either: a series of the same length and a
    different index divides where `*` raises.
   */
  lemma DivSkipsIndexCheck(a: TimeSerie, b: TimeSerie)
    requires |a.index| == |b.index| && a.index != b.index && NonZero(b.values)
    ensures Mul(a, Series(b)) == Err(IndexMismatch)
    ensures TrueDiv(a, Series(b)).Ok? && TrueDiv(a, Series(b)).value.index == a.index
  {
  }

  // ---------------------------------------------------------------------
  // Identity laws

  /** `a * 0 + 1` is one everywhere on `a`'s index. */
  lemma TimesZeroPlusOne(a: TimeSerie)
    ensures Add(Mul(a, IntScalar(0)).value, IntScalar(1)) == Ok(Filled(a.index, 1.0))
  {
    var zero := Mul(a, IntScalar(0)).value;
    var one := Add(zero, IntScalar(1)).value;
    assert one.values == Filled(a.index, 1.0).values;
  }

  /** `0 * a` is zero everywhere on `a`'s index. */
  lemma ZeroTimes(a: TimeSerie)
    ensures RMul(IntScalar(0), a) == Ok(Filled(a.index, 0.0))
  {
    var zero := RMul(IntScalar(0), a).value;
    assert zero.values == Filled(a.index, 0.0).values;
  }

  // ---------------------------------------------------------------------
  // **

  /** `a ** 1 == a`. */
  lemma PowOne(a: TimeSerie)
    ensures Pow(a, IntScalar(1)) == Ok(a)
  {
    var p := Pow(a, IntScalar(1)).value;
    forall i | 0 <= i < |a.values| ensures p.values[i] == a.values[i] {
      assert PowNat(a.values[i], 1) == a.values[i] * PowNat(a.values[i], 0);
    }
    assert p.values == a.values;
  }

  /** `a ** 0` is one everywhere. */
  lemma PowZero(a: TimeSerie)
    ensures Pow(a, IntScalar(0)) == Ok(Filled(a.index, 1.0))
  {
    var p := Pow(a, IntScalar(0)).value;
    assert p.values == Filled(a.index, 1.0).values;
  }

  /** Exponents add: `a ** (m + n) == a ** m * a ** n`. */
  lemma PowAdd(a: TimeSerie, m: nat, n: nat)
    ensures Pow(a, IntScalar(m + n)) == Mul(Pow(a, IntScalar(m)).value, Series(Pow(a, IntScalar(n)).value))
  {
    var am, an := Pow(a, IntScalar(m)).value, Pow(a, IntScalar(n)).value;
    var sum := Pow(a, IntScalar(m + n)).value;
    var product := Mul(am, Series(an)).value;
    forall i | 0 <= i < |a.values| ensures sum.values[i] == product.values[i] {
      PowNatAdd(a.values[i], m, n);
    }
    assert sum.values == product.values;
  }

  /** `a ** 2 == a * a`. */
  lemma PowTwoIsSquare(a: TimeSerie)
    ensures Pow(a, IntScalar(2)) == Mul(a, Series(a))
  {
    PowAdd(a, 1, 1);
    PowOne(a);
  }

  /** A negative exponent is the reciprocal: `a ** -n == 1 / (a ** n)`. */
  lemma PowNegativeIsReciprocal(a: TimeSerie, n: nat)
    requires NonZero(a.values)
    ensures NonZero(Pow(a, IntScalar(n)).value.values)
    ensures Pow(a, IntScalar(-(n as int))) == RTrueDiv(IntScalar(1), Pow(a, IntScalar(n)).value)
  {
    var positive := Pow(a, IntScalar(n)).value;
    assert NonZero(positive.values);
    var negative := Pow(a, IntScalar(-(n as int))).value;
    var inverse := RTrueDiv(IntScalar(1), positive).value;
    forall i | 0 <= i < |a.values| ensures negative.values[i] == inverse.values[i] {
      NegativePowerInverts(a.values[i], n);
    }
    assert negative.values == inverse.values;
  }

  /** `x ** a` and `a ** x` accept exactly the same operands: an int. */
  lemma RPowAdmitsLikePow(x: Operand, a: TimeSerie, power: (int, real) -> real)
    requires x.IntScalar? && x.n < 0 ==> NonZero(a.values)
    ensures RPow(x, a, power).Ok? == Pow(a, x).Ok?
    ensures RPow(x, a, power).Err? ==> RPow(x, a, power) == Pow(a, x)
  {
  }
}
