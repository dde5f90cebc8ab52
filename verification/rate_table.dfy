/** The fixed exchange-rate table shared by every currency value.
    Each entry gives how many units of a currency one US dollar buys, so an
    amount `v` of currency `u` is worth `v / Rates[u]` US dollars.
    The decimal literals are exact `real`s here, not binary floats. */
module RateTable {

  datatype Option<+T> = None | Some(value: T)

  /** The six supported codes, written out independently of the table. */
  const Codes: set<string> := {"CHF", "CAD", "GBP", "JPY", "EUR", "USD"}

  /** Units per US dollar; the US dollar itself is the reference with rate 1. */
  const Rates: map<string, real> := map[
    "CHF" := 0.930023,   // Swiss franc
    "CAD" := 1.264553,   // Canadian dollar
    "GBP" := 0.737414,   // British pound
    "JPY" := 111.019919, // Japanese yen
    "EUR" := 0.862361,   // Euro
    "USD" := 1.0         // US dollar
  ]

  /** True when looking `unit` up in the table succeeds. */
  function Known(unit: string): (b: bool)
    ensures b <==> unit in Codes
  {
    unit in Rates
  }

  /** The rate of a supported code: always positive, and exactly 1 for the
      reference currency and for no other code. */
  function Rate(unit: string): (r: real)
    requires Known(unit)
    ensures r > 0.0
    ensures r == 1.0 <==> unit == "USD"
  {
    Rates[unit]
  }

  /** Every key of `keys` is in the table. */
  predicate AllKnown(keys: seq<string>)
  {
    forall i :: 0 <= i < |keys| ==> Known(keys[i])
  }

  /** The first key of `keys` that the table does not hold, if any: the key a
      sequence of dictionary lookups, done in order, fails on. */
  function FirstUnknown(keys: seq<string>): (r: Option<string>)
    ensures r == None <==> AllKnown(keys)
    ensures r.Some? ==> exists i :: 0 <= i < |keys| && keys[i] == r.value
                          && !Known(keys[i])
                          && forall j :: 0 <= j < i ==> Known(keys[j])
  {
    if |keys| == 0 then None
    else if !Known(keys[0]) then Some(keys[0])
    else FirstUnknown(keys[1..])
  }
}
