/**
  The TimeSerie value type of tsgen: a timestamp index paired with a
  values array of the same length, its constructor checks, its equality,
  and the operand rules of `+ - * / **` in both operand orders.

  Timestamps are integers, values are reals, and every Python exception
  the core raises is an `Err` of the `Result` the operation returns.
 */
module TimeSeries {
  import opened Elementwise

  /** The operator a TypeError names in its message. */
  datatype Operator = Plus | Star | Slash | StarStar

  /**
    What the core raises. IndexTypeError and UnsupportedOperand are
    TypeErrors; ShapeMismatch, LengthMismatch and IndexMismatch are
    ValueErrors; ZeroDivision is Python's ZeroDivisionError.
   */
  datatype Error =
    | IndexTypeError               // the index is not a DatetimeIndex
    | ShapeMismatch                // index and values differ in length at construction
    | LengthMismatch               // pandas compared two indexes of different lengths
    | IndexMismatch                // two indexes of one length differ at some position
    | UnsupportedOperand(op: Operator)
    | ZeroDivision                 // `1 / 0` on a scalar divisor

  datatype Result<+T> = Ok(value: T) | Err(error: Error)

  datatype Outcome = Pass | Fail(error: Error)

  datatype Serie = Serie(index: seq<int>, values: seq<real>)

  /** A constructed TimeSerie: one value per timestamp. */
  type TimeSerie = s: Serie | |s.index| == |s.values| witness Serie([], [])

  /** The `index` argument of the constructor: a DatetimeIndex, or anything else with timestamps. */
  datatype IndexArg = DatetimeIndex(stamps: seq<int>) | OtherIndex(stamps: seq<int>)

  /** The right-hand (or, for the reflected forms, left-hand) operand of an operator. */
  datatype Operand = IntScalar(n: int) | RealScalar(x: real) | Series(ts: TimeSerie) | Other
  {
    predicate IsNumber() { IntScalar? || RealScalar? }

    /** The number as numpy broadcasts it over a float array. */
    function Number(): real
      requires IsNumber()
    {
      if IntScalar? then n as real else x
    }
  }

  /** The Python number types `_check_operator_input` can be asked to accept. */
  datatype NumberType = IntType | FloatType

  /** The default `allowed_types=(int, float)`. */
  const NumericTypes: seq<NumberType> := [IntType, FloatType]

  /** `isinstance(x, t)` for a number type `t`. */
  predicate IsInstance(x: Operand, t: NumberType)
  {
    match t
    case IntType => x.IntScalar?
    case FloatType => x.RealScalar?
  }

  // ---------------------------------------------------------------------
  // Construction, length, equality

  /** `TimeSerie(index, y_values)`: the index type is checked before the lengths. */
  function New(index: IndexArg, values: seq<real>): (r: Result<TimeSerie>)
    ensures index.OtherIndex? ==> r == Err(IndexTypeError)
    ensures index.DatetimeIndex? && |index.stamps| != |values| ==> r == Err(ShapeMismatch)
    ensures r.Ok? <==> index.DatetimeIndex? && |index.stamps| == |values|
    ensures r.Ok? ==> r.value.index == index.stamps && r.value.values == values
  {
    if !index.DatetimeIndex? then Err(IndexTypeError)
    else if |index.stamps| != |values| then Err(ShapeMismatch)
    else Ok(Serie(index.stamps, values))
  }

  /** `len(ts)`: the length of the index, which is also the number of values. */
  function Len(a: TimeSerie): (n: nat)
    ensures n == |a.values|
  {
    |a.index|
  }

  /**
    pandas `(x == y).all()` on two indexes: a ValueError when the lengths
    differ, otherwise whether every position agrees.
   */
  function IndexesEqual(x: seq<int>, y: seq<int>): (r: Result<bool>)
    ensures |x| != |y| ==> r == Err(LengthMismatch)
    ensures |x| == |y| ==> r == Ok(x == y)
  {
    if |x| != |y| then Err(LengthMismatch)
    else Ok(forall i | 0 <= i < |x| :: x[i] == y[i])
  }

  /**
    `a == other`: false for anything that is not a TimeSerie; otherwise
    exact position-by-position equality of index and values. Indexes of
    different lengths make pandas raise.
   */
  function Equals(a: TimeSerie, other: Operand): (r: Result<bool>)
    ensures !other.Series? ==> r == Ok(false)
    ensures other.Series? && |other.ts.index| != |a.index| ==> r == Err(LengthMismatch)
    ensures other.Series? && |other.ts.index| == |a.index| ==> r == Ok(a == other.ts)
  {
    match other
    case Series(b) =>
      (match IndexesEqual(a.index, b.index)
       case Err(e) => Err(e)
       case Ok(sameIndex) =>
         Ok(sameIndex && forall i | 0 <= i < |a.values| :: a.values[i] == b.values[i]))
    case _ => Ok(false)
  }

  // ---------------------------------------------------------------------
  // Operand checks

  /**
    What `_check_operator_input(x, allowed, seriesAllowed)` answers: `x`
    is an instance of one of the allowed number types, or a TimeSerie
    where series are allowed.
   */
  predicate Admits(x: Operand, allowed: seq<NumberType>, seriesAllowed: bool)
  {
    (exists j :: 0 <= j < |allowed| && IsInstance(x, allowed[j]))
    || (seriesAllowed && x.Series?)
  }

  /** `_check_operator_input`: scan the allowed types, returning at the first match. */
  method CheckOperatorInput(x: Operand, allowed: seq<NumberType>, seriesAllowed: bool)
    returns (ok: bool)
    ensures ok == Admits(x, allowed, seriesAllowed)
  {
    for j := 0 to |allowed|
      invariant forall k :: 0 <= k < j ==> !IsInstance(x, allowed[k])
    {
      if IsInstance(x, allowed[j]) {
        return true;
      }
    }
    return seriesAllowed && x.Series?;
  }

  /** With the default arguments, everything but a non-number non-series is admitted. */
  lemma AdmitsNumbersAndSeries(x: Operand)
    ensures Admits(x, NumericTypes, true) <==> !x.Other?
  {
    if x.IntScalar? {
      assert IsInstance(x, NumericTypes[0]);
    } else if x.RealScalar? {
      assert IsInstance(x, NumericTypes[1]);
    }
  }

  /** With `allowed_types=[int], time_serie_allowed=False`, only an int is admitted. */
  lemma AdmitsIntOnly(x: Operand)
    ensures Admits(x, [IntType], false) <==> x.IntScalar?
  {
    if x.IntScalar? {
      assert IsInstance(x, [IntType][0]);
    }
  }

  /**
    `_check_indexes_match`: passes exactly when the two indexes are equal;
    a length difference surfaces as pandas' own ValueError.
   */
  function CheckIndexesMatch(a: TimeSerie, b: TimeSerie): (r: Outcome)
    ensures r == Pass <==> a.index == b.index
    ensures |a.index| != |b.index| ==> r == Fail(LengthMismatch)
    ensures |a.index| == |b.index| && a.index != b.index ==> r == Fail(IndexMismatch)
  {
    match IndexesEqual(a.index, b.index)
    case Err(e) => Fail(e)
    case Ok(same) => if same then Pass else Fail(IndexMismatch)
  }

  // ---------------------------------------------------------------------
  // + and *

  /** `a + other`: type check, then index check, then a fresh series on `a`'s index. */
  function Add(a: TimeSerie, other: Operand): (r: Result<TimeSerie>)
    ensures other.Other? ==> r == Err(UnsupportedOperand(Plus))
    ensures other.Series? && |other.ts.index| != |a.index| ==> r == Err(LengthMismatch)
    ensures other.Series? && |other.ts.index| == |a.index| && other.ts.index != a.index
            ==> r == Err(IndexMismatch)
    ensures r.Ok? <==> other.IsNumber() || (other.Series? && other.ts.index == a.index)
    ensures r.Ok? ==> r.value.index == a.index && |r.value.values| == |a.values|
    ensures other.IsNumber() && r.Ok? ==>
              forall i :: 0 <= i < |a.values| ==> r.value.values[i] == a.values[i] + other.Number()
    ensures other.Series? && r.Ok? ==>
              forall i :: 0 <= i < |a.values| ==> r.value.values[i] == a.values[i] + other.ts.values[i]
  {
    AdmitsNumbersAndSeries(other);
    if !Admits(other, NumericTypes, true) then Err(UnsupportedOperand(Plus))
    else match other
      case Series(b) =>
        (match CheckIndexesMatch(a, b)
         case Fail(e) => Err(e)
         case Pass => New(DatetimeIndex(a.index), AddValues(a.values, b.values)))
      case IntScalar(n) => New(DatetimeIndex(a.index), AddScalar(a.values, n as real))
      case RealScalar(x) => New(DatetimeIndex(a.index), AddScalar(a.values, x))
      case Other => Err(UnsupportedOperand(Plus))  // already rejected by the check
  }

  /** `other + a` where `other` is not a TimeSerie: delegates to `a + other`. */
  function RAdd(other: Operand, a: TimeSerie): (r: Result<TimeSerie>)
    ensures r == Add(a, other)
    ensures other.IsNumber() ==> r.Ok? && r.value.index == a.index && |r.value.values| == |a.values|
    ensures other.IsNumber() ==>
              forall i :: 0 <= i < |a.values| ==> r.value.values[i] == other.Number() + a.values[i]
  {
    Add(a, other)
  }

  /** `a * other`: type check, then index check, then a fresh series on `a`'s index. */
  function Mul(a: TimeSerie, other: Operand): (r: Result<TimeSerie>)
    ensures other.Other? ==> r == Err(UnsupportedOperand(Star))
    ensures other.Series? && |other.ts.index| != |a.index| ==> r == Err(LengthMismatch)
    ensures other.Series? && |other.ts.index| == |a.index| && other.ts.index != a.index
            ==> r == Err(IndexMismatch)
    ensures r.Ok? <==> other.IsNumber() || (other.Series? && other.ts.index == a.index)
    ensures r.Ok? ==> r.value.index == a.index && |r.value.values| == |a.values|
    ensures other.IsNumber() && r.Ok? ==>
              forall i :: 0 <= i < |a.values| ==> r.value.values[i] == a.values[i] * other.Number()
    ensures other.Series? && r.Ok? ==>
              forall i :: 0 <= i < |a.values| ==> r.value.values[i] == a.values[i] * other.ts.values[i]
  {
    AdmitsNumbersAndSeries(other);
    if !Admits(other, NumericTypes, true) then Err(UnsupportedOperand(Star))
    else match other
      case Series(b) =>
        (match CheckIndexesMatch(a, b)
         case Fail(e) => Err(e)
         case Pass => New(DatetimeIndex(a.index), MulValues(a.values, b.values)))
      case IntScalar(n) => New(DatetimeIndex(a.index), MulScalar(a.values, n as real))
      case RealScalar(x) => New(DatetimeIndex(a.index), MulScalar(a.values, x))
      case Other => Err(UnsupportedOperand(Star))  // already rejected by the check
  }

  /** `other * a` where `other` is not a TimeSerie: delegates to `a * other`. */
  function RMul(other: Operand, a: TimeSerie): (r: Result<TimeSerie>)
    ensures r == Mul(a, other)
    ensures other.IsNumber() ==> r.Ok? && r.value.index == a.index && |r.value.values| == |a.values|
    ensures other.IsNumber() ==>
              forall i :: 0 <= i < |a.values| ==> r.value.values[i] == other.Number() * a.values[i]
  {
    Mul(a, other)
  }

  // ---------------------------------------------------------------------
  // - and /

  /**
    `a - other`: `a + (-1 * other)`. A series operand is first negated
    onto `a`'s own index, so its index is never compared with `a`'s: only
    the constructor's length check applies. For an operand that is
    neither number nor series, Python's `-1 * other` raises first.
   */
  function Sub(a: TimeSerie, other: Operand): (r: Result<TimeSerie>)
    ensures other.Other? ==> r == Err(UnsupportedOperand(Star))
    ensures other.Series? && |other.ts.values| != |a.values| ==> r == Err(ShapeMismatch)
    ensures r.Ok? <==> other.IsNumber() || (other.Series? && |other.ts.values| == |a.values|)
    ensures r.Ok? ==> r.value.index == a.index && |r.value.values| == |a.values|
    ensures other.IsNumber() && r.Ok? ==>
              forall i :: 0 <= i < |a.values| ==> r.value.values[i] == a.values[i] - other.Number()
    ensures other.Series? && r.Ok? ==>
              forall i :: 0 <= i < |a.values| ==> r.value.values[i] == a.values[i] - other.ts.values[i]
  {
    match other
    case IntScalar(n) => Add(a, IntScalar(-1 * n))
    case RealScalar(x) => Add(a, RealScalar(-1.0 * x))
    case Series(b) =>
      (match New(DatetimeIndex(a.index), MulScalar(b.values, -1.0))
       case Err(e) => Err(e)
       case Ok(negated) => Add(a, Series(negated)))
    case Other => Err(UnsupportedOperand(Star))
  }

  /** `other - a`: `(-1 * a) + other`. */
  function RSub(other: Operand, a: TimeSerie): (r: Result<TimeSerie>)
    ensures other.Other? ==> r == Err(UnsupportedOperand(Plus))
    ensures other.Series? ==> (r.Ok? <==> other.ts.index == a.index)
    ensures other.Series? && |other.ts.index| != |a.index| ==> r == Err(LengthMismatch)
    ensures other.Series? && |other.ts.index| == |a.index| && other.ts.index != a.index
            ==> r == Err(IndexMismatch)
    ensures r.Ok? ==> r.value.index == a.index && |r.value.values| == |a.values|
    ensures other.IsNumber() ==> r.Ok?
    ensures other.IsNumber() ==>
              forall i :: 0 <= i < |a.values| ==> r.value.values[i] == other.Number() - a.values[i]
    ensures other.Series? && r.Ok? ==>
              forall i :: 0 <= i < |a.values| ==> r.value.values[i] == other.ts.values[i] - a.values[i]
  {
    var negated := Mul(a, IntScalar(-1)).value;
    Add(negated, other)
  }

  /**
    `a / other`: `a * (1 / other)`. A zero scalar raises ZeroDivisionError;
    a series divisor is inverted onto `a`'s own index, so as for `-` only
    the constructor's length check applies.
   */
  function TrueDiv(a: TimeSerie, other: Operand): (r: Result<TimeSerie>)
    requires other.Series? ==> NonZero(other.ts.values)
    ensures other.Other? ==> r == Err(UnsupportedOperand(Slash))
    ensures other.IsNumber() && other.Number() == 0.0 ==> r == Err(ZeroDivision)
    ensures other.Series? && |other.ts.values| != |a.values| ==> r == Err(ShapeMismatch)
    ensures r.Ok? <==> (other.IsNumber() && other.Number() != 0.0)
                       || (other.Series? && |other.ts.values| == |a.values|)
    ensures r.Ok? ==> r.value.index == a.index && |r.value.values| == |a.values|
    ensures other.IsNumber() && r.Ok? ==>
              forall i :: 0 <= i < |a.values| ==> r.value.values[i] == a.values[i] / other.Number()
    ensures other.Series? && r.Ok? ==>
              forall i :: 0 <= i < |a.values| ==> r.value.values[i] == a.values[i] / other.ts.values[i]
  {
    match other
    case IntScalar(n) => if n == 0 then Err(ZeroDivision) else Mul(a, RealScalar(1.0 / n as real))
    case RealScalar(x) => if x == 0.0 then Err(ZeroDivision) else Mul(a, RealScalar(1.0 / x))
    case Series(b) =>
      (match New(DatetimeIndex(a.index), Reciprocal(b.values))
       case Err(e) => Err(e)
       case Ok(inverse) => Mul(a, Series(inverse)))
    case Other => Err(UnsupportedOperand(Slash))
  }

  /**
    `other / a`: `other * (1 / a)`, with `1 / a` built on `a`'s index. A
    number or an unsupported operand reaches `(1 / a).__rmul__`; a series
    operand multiplies from its own side.
   */
  function RTrueDiv(other: Operand, a: TimeSerie): (r: Result<TimeSerie>)
    requires NonZero(a.values)
    ensures other.Other? ==> r == Err(UnsupportedOperand(Star))
    ensures other.Series? ==> (r.Ok? <==> other.ts.index == a.index)
    ensures other.Series? && |other.ts.index| != |a.index| ==> r == Err(LengthMismatch)
    ensures other.Series? && |other.ts.index| == |a.index| && other.ts.index != a.index
            ==> r == Err(IndexMismatch)
    ensures r.Ok? ==> r.value.index == a.index && |r.value.values| == |a.values|
    ensures other.IsNumber() ==> r.Ok?
    ensures other.IsNumber() ==>
              forall i :: 0 <= i < |a.values| ==> r.value.values[i] == other.Number() / a.values[i]
    ensures other.Series? && r.Ok? ==>
              forall i :: 0 <= i < |a.values| ==> r.value.values[i] == other.ts.values[i] / a.values[i]
  {
    var inverse := New(DatetimeIndex(a.index), Reciprocal(a.values)).value;
    match other
    case Series(b) => Mul(b, Series(inverse))
    case _ => Mul(inverse, other)
  }

  // ---------------------------------------------------------------------
  // **

  /**
    `a ** other`: only an int exponent passes the check
    (`allowed_types=[int], time_serie_allowed=False`), so a float and a
    series are both TypeErrors and the series branch after the check is
    never taken.
   */
  function Pow(a: TimeSerie, other: Operand): (r: Result<TimeSerie>)
    requires other.IntScalar? && other.n < 0 ==> NonZero(a.values)
    ensures !other.IntScalar? ==> r == Err(UnsupportedOperand(StarStar))
    ensures r.Ok? <==> other.IntScalar?
    ensures r.Ok? ==> r.value.index == a.index && |r.value.values| == |a.values|
    ensures r.Ok? ==>
              forall i :: 0 <= i < |a.values| ==> r.value.values[i] == IntPower(a.values[i], other.n)
  {
    AdmitsIntOnly(other);
    if !Admits(other, [IntType], false) then Err(UnsupportedOperand(StarStar))
    else New(DatetimeIndex(a.index), PowScalar(a.values, other.n))
  }

  /**
    `other ** a` where `other` is not a TimeSerie: the same check as `**`,
    so only an int base passes. `power` is numpy's `int ** float`, which
    this model leaves uninterpreted.
   */
  function RPow(other: Operand, a: TimeSerie, power: (int, real) -> real): (r: Result<TimeSerie>)
    ensures !other.IntScalar? ==> r == Err(UnsupportedOperand(StarStar))
    ensures r.Ok? <==> other.IntScalar?
    ensures r.Ok? ==> r.value.index == a.index && |r.value.values| == |a.values|
    ensures r.Ok? ==>
              forall i :: 0 <= i < |a.values| ==> r.value.values[i] == power(other.n, a.values[i])
  {
    AdmitsIntOnly(other);
    if !Admits(other, [IntType], false) then Err(UnsupportedOperand(StarStar))
    else New(DatetimeIndex(a.index), seq(|a.values|, i requires 0 <= i < |a.values| => power(other.n, a.values[i])))
  }
}
