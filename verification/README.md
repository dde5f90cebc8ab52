# Currency value type

A model of the `Currency` class of a small Python currency-exchange library
(`main.py`). A `Currency` is an amount tagged with a currency code. A fixed
six-entry rate table gives, for each code, how many units one US dollar buys
(USD itself is the reference, with rate 1). On top of that table the class
provides `changeTo` (convert in place to another code) and the `+`, `+=`,
reflected `+`, `-`, `-=` and reflected `-` operators. Their right operand is
either a plain number, which counts as US dollars, or another `Currency`.

The model is functional and uses exact `real` arithmetic:

- `rate_table.dfy` (module `RateTable`) holds the table `Rates`, the predicate
  `Known` (the lookup succeeds), `AllKnown`, `Rate`, and `FirstUnknown`. `FirstUnknown`
  gives the first key of a run of lookups that is missing, which is the key
  Python's `KeyError` reports.
- `currency.dfy` (module `Currencies`) holds the datatype
  `Currency(value, unit := "USD")`, the operand sum type
  `Operand = Num | Cur`, and `Result = Ok | UnknownUnit(code)` for a failed
  lookup. It also holds `Difference = Bare | Tagged`, the two shapes the
  reflected subtraction returns, and one function per operation. The
  in-place operators and `changeTo` return the updated receiver. Each
  operation is stated against `UsdValue(c) = c.value / Rate(c.unit)`, the
  dollar worth a conversion must keep.
- `currency_laws.dfy` (module `CurrencyLaws`) relates the operations to each
  other.

Where the code and its comments disagree, the model follows the code. The
following facts about `main.py` shape the model:

- A plain number on the right of `+`/`-` is a dollar amount: it is scaled by
  the left operand's rate (`n * rate[self.unit]`), as the docstrings at
  main.py:34 and main.py:66 say ("treated as a USD value").
- `number + currency` always ends in US dollars. For `3 + Currency(23.43, "EUR")`
  the result is `(23.43 + 3 * 0.862361) / 0.862361` USD, while the comment at
  main.py:101 shows 26.28 EUR.
- Most of the "Output:" comments at main.py:98-103 do not match what the
  code computes; `CurrencyLaws.ExampleCalls` states what it does compute.
- `number - currency` looks nothing up in the table, so an unknown code there
  raises no error. The result is `n - value` with no conversion. It is a bare
  number when the unit is `"USD"` and a dollar-tagged value otherwise.
- Building a value does not check its unit. The first use that needs the
  rate fails instead.

## Model

| member | source | states |
|---|---|---|
| RateTable.Known | main.py:3-10 | a lookup succeeds exactly for the six codes CHF, CAD, GBP, JPY, EUR, USD |
| RateTable.Rate | main.py:3-10 | every rate is positive, and the rate is exactly 1 for USD and for no other code |
| RateTable.FirstUnknown | main.py:20 | no key is reported iff every key of the lookup run is in the table; a reported key is missing and every key looked up before it was found |
| Currencies.ChangeTo | main.py:16-21 | succeeds iff both the old and the new unit are in the table, and otherwise reports the first missing one (old unit first); on success the unit is the requested one, the dollar worth is unchanged, and converting to the current unit changes nothing |
| Currencies.Projection | main.py:36-39 | the converted term `x` is computed iff the receiver's unit and the operand's unit are known (operand's unit looked up first); `x` expressed in dollars equals the operand's dollar worth, a plain number counting as dollars |
| Currencies.Add | main.py:29-40 | `a + b` succeeds iff all units involved are known, reports the first missing key otherwise, keeps `a`'s unit, and is worth `a`'s dollars plus `b`'s dollars |
| Currencies.AddInPlace | main.py:42-50 | after `a += b` the receiver keeps its unit and its dollar worth has grown by `b`'s, with the same failure cases as `+` |
| Currencies.AddReflected | main.py:52-59 | `n + a` succeeds iff `a`'s unit is known (else reports that unit), is always in USD, and its amount is `a`'s dollar worth plus `n` |
| Currencies.Sub | main.py:61-72 | `a - b` succeeds iff all units involved are known, reports the first missing key otherwise, keeps `a`'s unit, and is worth `a`'s dollars minus `b`'s dollars |
| Currencies.SubInPlace | main.py:74-82 | after `a -= b` the receiver keeps its unit and its dollar worth has shrunk by `b`'s, with the same failure cases as `-` |
| Currencies.SubReflected | main.py:84-91 | `n - a` is a bare number exactly when `a`'s unit is "USD" and a USD-tagged value otherwise; either way its amount is `n - a.value`, with no conversion |
| CurrencyLaws.ChangeToCompose | main.py:16-21 | converting to `u` and then to `w` gives the same outcome, failure included, as converting straight to `w` |
| CurrencyLaws.ChangeToRoundTrip | main.py:16-21 | converting to any supported unit and back returns exactly the original value and unit |
| CurrencyLaws.ChangeAll | main.py:16-21 | a run of `changeTo` calls on one receiver succeeds iff every unit is known; it stops at the first missing unit; on success it ends in the last unit with its dollar worth unchanged |
| CurrencyLaws.ChangeAllIsOneChange | main.py:16-21 | a run of successful conversions equals one conversion to the last unit |
| CurrencyLaws.NumberIsDollars | main.py:36-39 | for `+`, `-`, `+=` and `-=`, a plain number `n` on the right gives the same outcome, failures included, as `Currency(n, "USD")` (lines 36-39, 46-49, 68-71, 78-81 with the USD rate of line 9) |
| CurrencyLaws.InPlaceMatchesPlain | main.py:42-50 | `a += b` leaves the receiver equal to `a + b`, and `a -= b` leaves it equal to `a - b` (lines 74-82), for every operand |
| CurrencyLaws.AddInPlaceMatchesAdd | main.py:42-50 | for every operand, failures included, `a += b` leaves the receiver equal to `a + b` (lines 29-40) |
| CurrencyLaws.SubInPlaceMatchesSub | main.py:74-82 | for every operand, failures included, `a -= b` leaves the receiver equal to `a - b` (lines 61-72) |
| CurrencyLaws.AddSubCancel | main.py:36-40 | `(a + b) - b` and `(a - b) + b` are both exactly `a`, because both operators subtract or add the same converted term (lines 68-72) |
| CurrencyLaws.AddSwapIsConversion | main.py:36-40 | `a + b` converted to `b`'s unit equals `b + a`: the two orders give the same money in different units |
| CurrencyLaws.AddReflectedInDollars | main.py:52-59 | for a supported unit, `n + a` equals `a + n` converted to USD, and equals `Currency(n, "USD") + a` |
| CurrencyLaws.AddReflectedIsDollarsPlus | main.py:52-59 | for every `a`, `n + a` equals `Currency(n, "USD") + a`, including the failure that reports `a`'s unknown unit |
| CurrencyLaws.SubReflectedSkipsConversion | main.py:84-91 | the amount of `n - a` equals that of `Currency(n, "USD") - a` iff `a` is in USD or its amount is zero |
| CurrencyLaws.ExampleCalls | main.py:94-103 | the exact results of all six example expressions: `v1 + v2`, `v2 + v1`, `v1 + 3`, `3 + v1`, `v1 - 3` and `30 - v2` |

## Left out

- `__repr__` / `__str__` (main.py:23-27) are not modelled. They round with
  Python's `round` on binary floats and format a string, and neither has an
  exact counterpart over reals.
- Floating-point behaviour is not modelled. Amounts are exact `real`s, so the
  round-trip and cancellation laws hold exactly here but only approximately
  for Python floats.
- The example script (main.py:94-103) is not modelled as a program. Its
  printed output is I/O, and most of its "Output:" comments do not match what
  the code computes. `CurrencyLaws.ExampleCalls` records what the code does
  compute.
- Exception propagation is not modelled. A missing table key is the
  `UnknownUnit` result naming the key, not a raised `KeyError`.
- Operands that are neither numbers nor `Currency` values are not modelled,
  because they fail with attribute errors. Python's `int`/`float` distinction
  is dropped, and so is `bool` counting as a number: every plain number is a
  `real`.
- Object identity and mutation are not modelled. In-place operators and
  `changeTo` return the new state of the receiver. So "neither operand is
  modified" by `+` and `-` holds by construction and is not a separate
  statement.
- The reflected operators are modelled only for a plain number on the left.
  Python never calls them with a `Currency` on the left, because the left
  operand's own `+`/`-` handles that case.
