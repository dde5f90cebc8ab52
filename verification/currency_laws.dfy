/** Laws relating the currency operations to each other: conversion
    round-trips and composition, plain numbers as dollars, the in-place
    operators against the plain ones, cancellation, and the behaviour of the
    two reflected operators. */
module CurrencyLaws {
  import opened RateTable
  import opened Currencies

  /** `v / p * q / q * s == v / p * s` for a non-zero `q`. */
  lemma CancelThrough(v: real, p: real, q: real, s: real)
    requires p > 0.0 && q > 0.0
    ensures v / p * q / q * s == v / p * s
  {
    assert v / p * q / q == v / p;
  }

  /** Converting twice is converting once, straight to the final unit. */
  lemma ChangeToCompose(c: Currency, u: string, w: string)
    requires Known(c.unit) && Known(u)
    ensures ChangeTo(c, u).Ok?
    ensures ChangeTo(ChangeTo(c, u).value, w) == ChangeTo(c, w)
  {
    if Known(w) {
      CancelThrough(c.value, Rate(c.unit), Rate(u), Rate(w));
    }
  }

  /** Converting to any supported unit and back gives back exactly the
      original value. */
  lemma ChangeToRoundTrip(c: Currency, u: string)
    requires Known(c.unit) && Known(u)
    ensures ChangeTo(c, u).Ok?
    ensures ChangeTo(ChangeTo(c, u).value, c.unit) == Ok(c)
  {
    ChangeToCompose(c, u, c.unit);
  }

  /** The receiver after `changeTo` is called with each unit of `units` in
      turn; the first failing lookup ends the sequence. */
  function ChangeAll(c: Currency, units: seq<string>): (r: Result<Currency>)
    ensures r.Ok? <==> |units| == 0 || (Known(c.unit) && AllKnown(units))
    ensures r.UnknownUnit? ==> FirstUnknown([c.unit] + units) == Some(r.code)
    ensures r.Ok? ==> r.value.unit == (if |units| == 0 then c.unit else units[|units| - 1])
    ensures r.Ok? && Known(c.unit) ==> Known(r.value.unit) && UsdValue(r.value) == UsdValue(c)
    decreases |units|
  {
    if |units| == 0 then Ok(c)
    else
      match ChangeTo(c, units[0])
      case UnknownUnit(k) => UnknownUnit(k)
      case Ok(c') =>
        assert [c.unit] + units == [c.unit] + ([c'.unit] + units[1..]);
        ChangeAll(c', units[1..])
  }

  /** However many conversions are chained, the outcome is that of one
      conversion to the last unit. */
  lemma {:induction false} ChangeAllIsOneChange(c: Currency, units: seq<string>)
    requires |units| > 0 && Known(c.unit) && AllKnown(units)
    ensures ChangeAll(c, units) == ChangeTo(c, units[|units| - 1])
    decreases |units|
  {
    if |units| > 1 {
      var last := units[|units| - 1];
      var c' := ChangeTo(c, units[0]).value;
      assert [c'.unit] + units[1..] == units;
      ChangeAllIsOneChange(c', units[1..]);
      assert units[1..][|units[1..]| - 1] == last;
      ChangeToCompose(c, units[0], last);
    }
  }

  /** A plain number on the right of `+`, `-`, `+=` or `-=` behaves exactly
      like a dollar value of the same amount, failures included. */
  lemma NumberIsDollars(a: Currency, n: real)
    ensures Add(a, Num(n)) == Add(a, Cur(Currency(n)))
    ensures Sub(a, Num(n)) == Sub(a, Cur(Currency(n)))
    ensures AddInPlace(a, Num(n)) == AddInPlace(a, Cur(Currency(n)))
    ensures SubInPlace(a, Num(n)) == SubInPlace(a, Cur(Currency(n)))
  {
    var d := Cur(Currency(n));
    assert Known("USD") && Rate("USD") == 1.0;
    if Known(a.unit) {
      SameWorthSameValue(Add(a, Num(n)).value, Add(a, d).value);
      SameWorthSameValue(Sub(a, Num(n)).value, Sub(a, d).value);
      SameWorthSameValue(AddInPlace(a, Num(n)).value, AddInPlace(a, d).value);
      SameWorthSameValue(SubInPlace(a, Num(n)).value, SubInPlace(a, d).value);
    } else {
      assert FirstUnknown(Lookups(a.unit, d)) == Some(a.unit);
    }
  }

  /** `a += b` leaves `a` as `a + b` would be, and `a -= b` as `a - b`. */
  lemma InPlaceMatchesPlain(a: Currency, other: Operand)
    ensures AddInPlace(a, other) == Add(a, other)
    ensures SubInPlace(a, other) == Sub(a, other)
  {
    AddInPlaceMatchesAdd(a, other);
    SubInPlaceMatchesSub(a, other);
  }

  /** `a += b` leaves `a` as `a + b` would be. */
  lemma AddInPlaceMatchesAdd(a: Currency, other: Operand)
    ensures AddInPlace(a, other) == Add(a, other)
  {
    if Known(a.unit) && OperandKnown(other) {
      SameWorthSameValue(AddInPlace(a, other).value, Add(a, other).value);
    }
  }

  /** `a -= b` leaves `a` as `a - b` would be. */
  lemma SubInPlaceMatchesSub(a: Currency, other: Operand)
    ensures SubInPlace(a, other) == Sub(a, other)
  {
    if Known(a.unit) && OperandKnown(other) {
      SameWorthSameValue(SubInPlace(a, other).value, Sub(a, other).value);
    }
  }

  /** `(a + b) - b` is `a` again, and so is `(a - b) + b`. */
  lemma AddSubCancel(a: Currency, other: Operand)
    requires Known(a.unit) && OperandKnown(other)
    ensures Add(a, other).Ok? && Sub(a, other).Ok?
    ensures Sub(Add(a, other).value, other) == Ok(a)
    ensures Add(Sub(a, other).value, other) == Ok(a)
  {
  }

  /** Two values in the same supported unit with the same dollar worth are
      the same value. */
  lemma SameWorthSameValue(c: Currency, d: Currency)
    requires Known(c.unit) && c.unit == d.unit
    requires UsdValue(c) == UsdValue(d)
    ensures c == d
  {
    var r := Rate(c.unit);
    assert c.value == c.value / r * r;
    assert d.value == d.value / r * r;
  }

  /** `a + b` and `b + a` are the same money, each in its left operand's
      unit: converting the first to `b`'s unit gives the second. */
  lemma AddSwapIsConversion(a: Currency, b: Currency)
    requires Known(a.unit) && Known(b.unit)
    ensures Add(a, Cur(b)).Ok? && Add(b, Cur(a)).Ok?
    ensures ChangeTo(Add(a, Cur(b)).value, b.unit) == Add(b, Cur(a))
  {
    var ab := Add(a, Cur(b)).value;
    SameWorthSameValue(ChangeTo(ab, b.unit).value, Add(b, Cur(a)).value);
  }

  /** `n + a` is `a + n` converted to dollars, and the same as adding `a` to
      a dollar value of `n`. */
  lemma AddReflectedInDollars(n: real, a: Currency)
    requires Known(a.unit)
    ensures Add(a, Num(n)).Ok?
    ensures AddReflected(n, a) == ChangeTo(Add(a, Num(n)).value, "USD")
    ensures AddReflected(n, a) == Add(Currency(n), Cur(a))
  {
    AddReflectedIsDollarsPlus(n, a);
  }

  /** `n + a` and `Currency(n, "USD") + a` agree for every `a`, and both
      report `a`'s unit when it is not in the table. */
  lemma AddReflectedIsDollarsPlus(n: real, a: Currency)
    ensures AddReflected(n, a) == Add(Currency(n), Cur(a))
  {
  }

  /** `n - a` agrees with `dollars(n) - a` exactly when no conversion would
      have mattered: `a` is in dollars or its amount is zero. */
  lemma SubReflectedSkipsConversion(n: real, a: Currency)
    requires Known(a.unit)
    ensures Sub(Currency(n), Cur(a)).Ok?
    ensures Amount(SubReflected(n, a)) == Sub(Currency(n), Cur(a)).value.value
            <==> a.unit == "USD" || a.value == 0.0
  {
    var r := Rate(a.unit);
    if a.value / r == a.value && a.value != 0.0 {
      assert a.value == a.value / r * r;
      assert r == 1.0;
    }
  }

  /** What the example lines at the end of main.py compute over exact reals
      (the printed values in their comments disagree with several of these). */
  lemma ExampleCalls()
    ensures Add(Currency(23.43, "EUR"), Cur(Currency(19.97))) == Ok(Currency(40.65134917, "EUR"))
    ensures Add(Currency(19.97), Cur(Currency(23.43, "EUR"))).Ok?
    ensures Add(Currency(19.97), Cur(Currency(23.43, "EUR"))).value.unit == "USD"
    ensures (Add(Currency(19.97), Cur(Currency(23.43, "EUR"))).value.value - 19.97) * 0.862361 == 23.43
    ensures Add(Currency(23.43, "EUR"), Num(3.0)) == Ok(Currency(26.017083, "EUR"))
    ensures AddReflected(3.0, Currency(23.43, "EUR")).Ok?
    ensures AddReflected(3.0, Currency(23.43, "EUR")).value.value * 0.862361 == 26.017083
    ensures Sub(Currency(23.43, "EUR"), Num(3.0)) == Ok(Currency(20.842917, "EUR"))
    ensures SubReflected(30.0, Currency(19.97)) == Bare(10.03)
  {
  }
}
