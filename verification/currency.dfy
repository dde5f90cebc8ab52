/** A monetary amount tagged with a currency code, with conversion between
    codes through the fixed rate table and the `+`/`-` operators in their
    plain, in-place and reflected forms.

    Values are immutable here: an operation that the Python class performs
    in place returns the updated record instead. A failed table lookup
    (Python's `KeyError`) is the `UnknownUnit` result carrying the code that
    was looked up first and found missing. */
module Currencies {
  import opened RateTable

  /** An amount of `unit`; the unit defaults to the US dollar, and is not
      checked against the table when the value is built. */
  datatype Currency = Currency(value: real, unit: string := "USD")

  /** Right-hand operand of `+` and `-`: a plain number or another value. */
  datatype Operand = Num(amount: real) | Cur(money: Currency)

  /** Either a value, or the table lookup that failed. */
  datatype Result<T> = Ok(value: T) | UnknownUnit(code: string)

  /** What `number - currency` yields: a bare number or a tagged value. */
  datatype Difference = Bare(amount: real) | Tagged(money: Currency)

  /** The worth of `c` in US dollars: the quantity a conversion must keep. */
  function UsdValue(c: Currency): real
    requires Known(c.unit)
  {
    c.value / Rate(c.unit)
  }

  /** Whether every unit an operand carries is in the table. */
  function OperandKnown(other: Operand): bool
  {
    match other
    case Num(_) => true
    case Cur(c) => Known(c.unit)
  }

  /** The worth of an operand in US dollars; a plain number counts as dollars. */
  function OperandUsd(other: Operand): real
    requires OperandKnown(other)
  {
    match other
    case Num(n) => n
    case Cur(c) => UsdValue(c)
  }

  /** The table keys that combining `other` into a value of unit `target`
      looks up, in the order the lookups happen. */
  function Lookups(target: string, other: Operand): seq<string>
  {
    match other
    case Num(_) => [target]
    case Cur(c) => [c.unit, target]
  }

  /** Convert `c` to `newUnit`: the unit becomes `newUnit` and the dollar
      worth is unchanged. The old unit is looked up before the new one. */
  function ChangeTo(c: Currency, newUnit: string): (r: Result<Currency>)
    ensures r.Ok? <==> Known(c.unit) && Known(newUnit)
    ensures r.UnknownUnit? ==> FirstUnknown([c.unit, newUnit]) == Some(r.code)
    ensures r.Ok? ==> r.value.unit == newUnit && UsdValue(r.value) == UsdValue(c)
    ensures r.Ok? && newUnit == c.unit ==> r.value == c
  {
    if !Known(c.unit) then UnknownUnit(c.unit)
    else if !Known(newUnit) then UnknownUnit(newUnit)
    else Ok(Currency(c.value / Rate(c.unit) * Rate(newUnit), newUnit))
  }

  /** The amount `other` contributes to a value of unit `target`: its dollar
      worth expressed in `target`. */
  function Projection(target: string, other: Operand): (r: Result<real>)
    ensures r.Ok? <==> Known(target) && OperandKnown(other)
    ensures r.UnknownUnit? ==> FirstUnknown(Lookups(target, other)) == Some(r.code)
    ensures r.Ok? ==> r.value / Rate(target) == OperandUsd(other)
  {
    match other
    case Num(n) =>
      if !Known(target) then UnknownUnit(target) else Ok(n * Rate(target))
    case Cur(c) =>
      if !Known(c.unit) then UnknownUnit(c.unit)
      else if !Known(target) then UnknownUnit(target)
      else Ok(c.value / Rate(c.unit) * Rate(target))
  }

  /** `a + other`: a new value in `a`'s unit worth the sum of both operands. */
  function Add(a: Currency, other: Operand): (r: Result<Currency>)
    ensures r.Ok? <==> Known(a.unit) && OperandKnown(other)
    ensures r.UnknownUnit? ==> FirstUnknown(Lookups(a.unit, other)) == Some(r.code)
    ensures r.Ok? ==> r.value.unit == a.unit
    ensures r.Ok? ==> UsdValue(r.value) == UsdValue(a) + OperandUsd(other)
  {
    match Projection(a.unit, other)
    case UnknownUnit(k) => UnknownUnit(k)
    case Ok(x) => Ok(Currency(a.value + x, a.unit))
  }

  /** `a += other`: the receiver after the in-place update. Its unit never
      changes and its dollar worth grows by the operand's. */
  function AddInPlace(a: Currency, other: Operand): (r: Result<Currency>)
    ensures r.Ok? <==> Known(a.unit) && OperandKnown(other)
    ensures r.UnknownUnit? ==> FirstUnknown(Lookups(a.unit, other)) == Some(r.code)
    ensures r.Ok? ==> r.value.unit == a.unit
    ensures r.Ok? ==> UsdValue(r.value) == UsdValue(a) + OperandUsd(other)
  {
    match other
    case Num(n) =>
      if !Known(a.unit) then UnknownUnit(a.unit)
      else Ok(a.(value := a.value + n * Rate(a.unit)))
    case Cur(c) =>
      if !Known(c.unit) then UnknownUnit(c.unit)
      else if !Known(a.unit) then UnknownUnit(a.unit)
      else Ok(a.(value := a.value + c.value / Rate(c.unit) * Rate(a.unit)))
  }

  /** `n + a` with the number on the left: `a + n` computed in `a`'s unit and
      then converted to US dollars, so the result is always in dollars. */
  function AddReflected(n: real, a: Currency): (r: Result<Currency>)
    ensures r.Ok? <==> Known(a.unit)
    ensures r.UnknownUnit? ==> r.code == a.unit
    ensures r.Ok? ==> r.value.unit == "USD"
    ensures r.Ok? ==> r.value.value == UsdValue(a) + n
  {
    match Add(a, Num(n))
    case UnknownUnit(k) => UnknownUnit(k)
    case Ok(res) => if res.unit != "USD" then ChangeTo(res, "USD") else Ok(res)
  }

  /** `a - other`: a new value in `a`'s unit worth the difference. */
  function Sub(a: Currency, other: Operand): (r: Result<Currency>)
    ensures r.Ok? <==> Known(a.unit) && OperandKnown(other)
    ensures r.UnknownUnit? ==> FirstUnknown(Lookups(a.unit, other)) == Some(r.code)
    ensures r.Ok? ==> r.value.unit == a.unit
    ensures r.Ok? ==> UsdValue(r.value) == UsdValue(a) - OperandUsd(other)
  {
    match Projection(a.unit, other)
    case UnknownUnit(k) => UnknownUnit(k)
    case Ok(x) => Ok(Currency(a.value - x, a.unit))
  }

  /** `a -= other`: the receiver after the in-place update. Its unit never
      changes and its dollar worth shrinks by the operand's. */
  function SubInPlace(a: Currency, other: Operand): (r: Result<Currency>)
    ensures r.Ok? <==> Known(a.unit) && OperandKnown(other)
    ensures r.UnknownUnit? ==> FirstUnknown(Lookups(a.unit, other)) == Some(r.code)
    ensures r.Ok? ==> r.value.unit == a.unit
    ensures r.Ok? ==> UsdValue(r.value) == UsdValue(a) - OperandUsd(other)
  {
    match other
    case Num(n) =>
      if !Known(a.unit) then UnknownUnit(a.unit)
      else Ok(a.(value := a.value - n * Rate(a.unit)))
    case Cur(c) =>
      if !Known(c.unit) then UnknownUnit(c.unit)
      else if !Known(a.unit) then UnknownUnit(a.unit)
      else Ok(a.(value := a.value - c.value / Rate(c.unit) * Rate(a.unit)))
  }

  /** `n - a` with the number on the left. The raw amount of `a` is taken
      away without any conversion and without consulting the table; the
      result is a bare number when `a` is in dollars and a dollar value
      otherwise. */
  function SubReflected(n: real, a: Currency): (r: Difference)
    ensures r.Bare? <==> a.unit == "USD"
    ensures r.Tagged? ==> r.money.unit == "USD"
    ensures Amount(r) == n - a.value
  {
    var res := n - a.value;
    if a.unit != "USD" then Tagged(Currency(res, "USD")) else Bare(res)
  }

  /** The number a difference carries, whether bare or tagged. */
  function Amount(d: Difference): real
  {
    match d
    case Bare(x) => x
    case Tagged(c) => c.value
  }
}
