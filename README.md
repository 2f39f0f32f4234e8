# tsgen TimeSerie in Dafny

A model of the `TimeSerie` value type of tsgen. A `TimeSerie` is a timestamp
index paired with a values array of the same length. The model covers the
constructor's checks, `len`, equality, and the operand rules of the arithmetic
operators `+ - * / **` together with their reflected forms (`1 + ts`, `2 / ts`, …).

- `elementwise.dfy` (module `Elementwise`): the vectorised numpy expressions
  the operators apply to the values array (`x + y`, `x * c`, `1 / x`, `x ** n`),
  written position by position over exact reals. Also the integer powers and
  their laws.
- `time_serie.dfy` (module `TimeSeries`): the data model and every operation of
  the class.
  - `Serie(index, values)` is the raw record, and the subset type `TimeSerie`
    requires `|index| == |values|`.
  - `Operand` is an int, a float, another TimeSerie, or anything `Other`.
  - `IndexArg` says whether the constructor's index is a DatetimeIndex.
  - Every Python exception becomes an `Err` of `Result`:
    - `IndexTypeError` and `UnsupportedOperand(op)` are TypeErrors.
    - `ShapeMismatch`, `LengthMismatch` and `IndexMismatch` are ValueErrors.
    - `ZeroDivision` is ZeroDivisionError.
  - The loop in `_check_operator_input` is the method `CheckOperatorInput`. It
    is proved against the predicate `Admits`, which the operators use.
- `time_serie_laws.dfy` (module `TimeSerieLaws`): lemmas relating the operators:
  - commutativity;
  - `-` and `/` undo `+` and `*`;
  - the identity laws;
  - the integer powers;
  - where `-` and `/` skip the index check that `+` and `*` make.

Timestamps are integers. Only their equality position by position matters,
which is what pandas compares.

### Where the code departs from what it appears to intend (the model follows the code)

- `**` with a series on the other side is a TypeError, on both sides. Both
  `__pow__` and `__rpow__` call the operand check with
  `time_serie_allowed=False` (tsgen/time_serie.py:180-182, 199-201). So the
  series branches after the check (188-194, 207-213) can never run.
  `Pow` and `RPow` reject every operand but an int.
- `-` and `/` with a series operand never compare indexes. They rebuild the
  negated or inverted operand on `self.index` (168-170, 131-133) and then add or
  multiply. Two same-length series with different indexes therefore combine.
  Different lengths fail in the constructor with `ShapeMismatch`, not
  `IndexMismatch`. See `SubSkipsIndexCheck` and `DivSkipsIndexCheck`.

### Behaviour worth knowing

- Comparing two indexes of different lengths makes pandas raise its own
  ValueError before "Indexes do not match" can be raised. The model names this
  error `LengthMismatch`. It surfaces from `+`, `*`, the reflected `-` and `/`,
  and `==`.
- Dividing by a scalar zero computes `1 / other` in Python, which raises
  ZeroDivisionError (`ZeroDivision`). It does not give an infinity.
- For an operand that is neither a number nor a TimeSerie:
  - `-` fails in Python's own `-1 * other`.
  - `/` fails in `1 / other`.
  - The reflected `-` and `/` fail in the TimeSerie's `+` and `*`.
  - The model names the operator of each such TypeError accordingly.

## Model

| member | source | states |
|---|---|---|
| TimeSeries.New | tsgen/time_serie.py:66-74 | a non-DatetimeIndex index is a TypeError whatever the lengths (the type check comes first); a length mismatch is a shape error; success exactly for a DatetimeIndex of the values' length, storing both unchanged |
| TimeSeries.Len | tsgen/time_serie.py:90-91 | `len(ts)`, taken from the index, equals the number of values |
| TimeSeries.IndexesEqual | tsgen/time_serie.py:103 | pandas index comparison: different lengths raise; otherwise true exactly when the indexes are equal |
| TimeSeries.Equals | tsgen/time_serie.py:99-105 | any non-TimeSerie compares false, never an error; for a series of the same length the answer is exactly equality of index and values |
| TimeSeries.CheckOperatorInput | tsgen/time_serie.py:217-228 | the early-return scan answers exactly whether the operand is an instance of an allowed number type, or a series where series are allowed |
| TimeSeries.AdmitsNumbersAndSeries | tsgen/time_serie.py:218-219 | with the default arguments the check admits every int, float and TimeSerie and nothing else |
| TimeSeries.AdmitsIntOnly | tsgen/time_serie.py:180-182 | with `allowed_types=[int], time_serie_allowed=False` the check admits only an int |
| TimeSeries.CheckIndexesMatch | tsgen/time_serie.py:230-235 | passes exactly when the indexes are equal; a length difference gives pandas' error, an equal-length difference gives IndexMismatch |
| TimeSeries.Add | tsgen/time_serie.py:144-159 | an unsupported operand is a TypeError for `+` before any index check; a series with a different index fails; success exactly for a number or a series on the same index, with `a`'s index and `a[i] + c` or `a[i] + b[i]` at every position |
| TimeSeries.RAdd | tsgen/time_serie.py:161-162 | `c + a` is `a + c`, and for a number holds `c + a[i]` on `a`'s index |
| TimeSeries.Mul | tsgen/time_serie.py:107-122 | an unsupported operand is a TypeError for `*` before any index check; a series with a different index fails; success exactly for a number or a series on the same index, with `a`'s index and `a[i] * c` or `a[i] * b[i]` at every position |
| TimeSeries.RMul | tsgen/time_serie.py:124-125 | `c * a` is `a * c`, and for a number holds `c * a[i]` on `a`'s index |
| TimeSeries.Sub | tsgen/time_serie.py:164-172 | succeeds for every number and for every series of the same length, whatever its index; a different length is a shape error; the result has `a`'s index and `a[i] - c` or `a[i] - b[i]` |
| TimeSeries.RSub | tsgen/time_serie.py:174-177 | `c - a` holds `c - a[i]` on `a`'s index for every number; a series operand must have `a`'s index, failing with pandas' length error or IndexMismatch otherwise; anything else is a TypeError for `+` |
| TimeSeries.TrueDiv | tsgen/time_serie.py:127-135 | a zero scalar raises ZeroDivisionError; a series of another length is a shape error, and its index is never compared; otherwise `a[i] / c` or `a[i] / b[i]` on `a`'s index |
| TimeSeries.RTrueDiv | tsgen/time_serie.py:137-142 | `c / a` holds `c / a[i]` on `a`'s index for every number; a series operand must have `a`'s index, failing with pandas' length error or IndexMismatch otherwise; anything else is a TypeError for `*` |
| TimeSeries.Pow | tsgen/time_serie.py:179-196 | only an int exponent is accepted, so a float and a series are TypeErrors; the result is `a[i] ** n` on `a`'s index |
| TimeSeries.RPow | tsgen/time_serie.py:198-215 | only an int base is accepted, so a float and a series are TypeErrors; the result keeps `a`'s index and length, holding `power(n, a[i])` |
| Elementwise.PowNat | tsgen/time_serie.py:196 | a natural power of a nonzero value is nonzero, and a power of one is one |
| Elementwise.PowNatAdd | tsgen/time_serie.py:196 | `x ** (m + n) == x ** m * x ** n` |
| Elementwise.NegativePowerInverts | tsgen/time_serie.py:196 | `x ** -n * x ** n == 1` for nonzero `x` |
| TimeSerieLaws.AddCommutes | tests/test_time_serie.py:50 | `a + b == b + a` for all series, errors included |
| TimeSerieLaws.MulCommutes | tsgen/time_serie.py:117-120 | `a * b == b * a` for all series, errors included |
| TimeSerieLaws.AddFilledIsAddScalar | tests/test_time_serie.py:51 | adding a series holding `c` everywhere on the same index equals adding the scalar `c` |
| TimeSerieLaws.SubUndoesAdd | tsgen/time_serie.py:164-166 | `(a + c) - c == a` for every number `c`, over exact reals |
| TimeSerieLaws.AddThenSubSelf | tsgen/time_serie.py:50-63 | `a + c - a` holds `c` at every position of `a`'s index, over exact reals |
| TimeSerieLaws.SubSelfIsZero | tsgen/time_serie.py:168-172 | `a - a` is zero everywhere on `a`'s index |
| TimeSerieLaws.SubSkipsIndexCheck | tsgen/time_serie.py:168-172 | for series of one length and different indexes, `+` raises IndexMismatch while `-` succeeds on the left index |
| TimeSerieLaws.DivUndoesMul | tsgen/time_serie.py:127-129 | `(a * c) / c == a` for every nonzero number `c`, over exact reals |
| TimeSerieLaws.DivIsReciprocalTimes | tsgen/time_serie.py:131-142 | `a / b == (1 / b) * a` for two series on one index |
| TimeSerieLaws.DivSkipsIndexCheck | tsgen/time_serie.py:131-135 | for series of one length and different indexes, `*` raises IndexMismatch while `/` succeeds on the left index |
| TimeSerieLaws.TimesZeroPlusOne | tsgen/time_serie.py:117-122 | `a * 0 + 1` is one everywhere on `a`'s index |
| TimeSerieLaws.ZeroTimes | tsgen/time_serie.py:124-125 | `0 * a` is zero everywhere on `a`'s index |
| TimeSerieLaws.PowOne | tsgen/time_serie.py:196 | `a ** 1 == a` |
| TimeSerieLaws.PowZero | tsgen/time_serie.py:196 | `a ** 0` is one everywhere |
| TimeSerieLaws.PowAdd | tsgen/time_serie.py:196 | `a ** (m + n) == a ** m * a ** n` for natural exponents |
| TimeSerieLaws.PowTwoIsSquare | tsgen/time_serie.py:196 | `a ** 2 == a * a` |
| TimeSerieLaws.PowNegativeIsReciprocal | tsgen/time_serie.py:196 | `a ** -n == 1 / (a ** n)` when no value is zero |
| TimeSerieLaws.RPowAdmitsLikePow | tsgen/time_serie.py:179-215 | `x ** a` and `a ** x` accept exactly the same operands and fail with the same error |

## Left out

- `to_frame`, `plot`, `__str__` and `__repr__` (tsgen/time_serie.py:76-97) are left out. They only format or plot through pandas.
- tsgen/generators.py is not part of this model. It wraps `pd.date_range`, `np.linspace`, floating-point trigonometry and unseeded random numbers.
- pandas `DatetimeIndex` internals are not modelled. Timestamps are integers, and "is a DatetimeIndex" is the tag of `IndexArg`.
- Python's `bool` is an `int` subclass, and numpy scalar types have their own classes. Neither is modelled: an operand is an int, a float, a TimeSerie or `Other`.
- `Other` stands for an operand that Python's own `int` arithmetic rejects too. A `str` or `list` differs in `-`: `-1 * "x"` is `""`, which `+` then rejects with `UnsupportedOperand(Plus)` instead.
- An int operand beyond the float64 range (such as `10**400` in `ts + n`, `ts * n`, `ts - n`, `ts ** n`, `n - ts` or `n / ts`) is not modelled. numpy rejects it with OverflowError when converting it for the float array; the model takes it as the exact real `n` and succeeds.
- Values are exact reals. Integer-dtype value arrays, NaN, infinities and rounding are not modelled.
- TrueDiv: requires a series divisor to hold no zero. numpy would give an infinity there, which reals cannot represent.
- RTrueDiv: requires the series to hold no zero, for the same reason.
- Pow: requires no zero value when the exponent is a negative int, for the same reason.
- RPow: numpy's `int ** float` is passed in as the function `power` and left uninterpreted. Only the dispatch, the index and the length are stated.
- The text of exception messages is not modelled beyond the operator a TypeError names.
