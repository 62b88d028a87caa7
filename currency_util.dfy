/**
 * Currency rates relative to the default currency SGD, and the three conversions built on them.
 * Amounts and rates are exact reals: Java's double rounding is not modelled.
 */
module CurrencyUtil {
  import opened Wrappers
  import opened Text

  /** Currency code to the amount of that currency one SGD buys. */
  type Rates = map<string, real>

  /** The table getCurrencyMap builds when none is set. */
  function DefaultRates(): (m: Rates)
    ensures m.Keys == {"SGD", "MYR", "USD", "EUR"}
  {
    map["SGD" := 1.0, "MYR" := 3.03, "USD" := 0.73, "EUR" := 0.66]
  }

  predicate NonZeroRates(m: Rates) {
    forall k :: k in m ==> m[k] != 0.0
  }

  lemma DefaultRatesNonZero()
    ensures NonZeroRates(DefaultRates())
  {
  }

  /**
   * The static field currencyMappings of CurrencyUtil. It starts out null; getCurrencyMap fills it with
   * the default table the first time it finds it null, and setCurrencyMap may replace it (even by null).
   */
  class CurrencyRegistry {
    var currencyMappings: Option<Rates>

    constructor()
      ensures currencyMappings == None
    {
      currencyMappings := None;
    }

    method GetCurrencyMap() returns (m: Rates)
      modifies this
      ensures old(currencyMappings).None? ==> m == DefaultRates()
      ensures old(currencyMappings).Some? ==> m == old(currencyMappings).value
      ensures currencyMappings == Some(m)
    {
      if currencyMappings.None? {
        var table: Rates := map[];
        table := table["SGD" := 1.0];
        table := table["MYR" := 3.03];
        table := table["USD" := 0.73];
        table := table["EUR" := 0.66];
        currencyMappings := Some(table);
      }
      m := currencyMappings.value;
    }

    method SetCurrencyMap(m: Option<Rates>)
      modifies this
      ensures currencyMappings == m
    {
      currencyMappings := m;
    }
  }

  /** The map is built once: a second getCurrencyMap returns the table the first one built. */
  method GetTwiceFromFresh() returns (first: Rates, second: Rates)
    ensures first == DefaultRates() && second == first
  {
    var registry := new CurrencyRegistry();
    first := registry.GetCurrencyMap();
    second := registry.GetCurrencyMap();
  }

  /** After setCurrencyMap(m) with m non-null, getCurrencyMap returns m, not the default table. */
  method SetThenGet(m: Rates) returns (got: Rates)
    ensures got == m
  {
    var registry := new CurrencyRegistry();
    registry.SetCurrencyMap(Some(m));
    got := registry.GetCurrencyMap();
  }

  /** Rate of a currency, looked up after upper-casing its code; absent codes have no rate. */
  function RateOf(m: Rates, currency: string): Option<real> {
    var key := ToUpper(currency);
    if key in m then Some(m[key]) else None
  }

  /** The rate a conversion into the default currency divides by is not zero (or the code is unknown). */
  predicate NonZeroRateOf(m: Rates, currency: string) {
    RateOf(m, currency).Some? ==> RateOf(m, currency).value != 0.0
  }

  /** A table without zero rates allows every conversion. */
  lemma NonZeroRatesAllowAll(m: Rates, currency: string)
    requires NonZeroRates(m)
    ensures NonZeroRateOf(m, currency)
  {
  }

  /** convertFromDefaultCurrency: from SGD into `currency`; unknown currencies pass through. */
  function ConvertFromDefault(m: Rates, value: real, currency: string): (r: real)
    ensures RateOf(m, currency).Some? ==> r == value * RateOf(m, currency).value
    ensures RateOf(m, currency).None? ==> r == value
  {
    var key := ToUpper(currency);
    if key in m then value * m[key] else value
  }

  /**
   * convertToDefaultCurrency: from `currency` into SGD; unknown currencies pass through.
   * The rate divided by is required non-zero, since a real quotient has no infinity.
   */
  function ConvertToDefault(m: Rates, value: real, currency: string): (r: real)
    requires NonZeroRateOf(m, currency)
    ensures RateOf(m, currency).Some? ==> r * RateOf(m, currency).value == value
    ensures RateOf(m, currency).None? ==> r == value
  {
    var key := ToUpper(currency);
    if key in m then value / m[key] else value
  }

  /** convert: from `from` to `to`, going through SGD. */
  function Convert(m: Rates, value: real, from: string, to: string): (r: real)
    requires NonZeroRateOf(m, from)
    ensures RateOf(m, from).Some? && RateOf(m, to).Some? ==>
              r == value / RateOf(m, from).value * RateOf(m, to).value
    ensures RateOf(m, from).Some? && RateOf(m, to).None? ==> r == value / RateOf(m, from).value
    ensures RateOf(m, from).None? && RateOf(m, to).Some? ==> r == value * RateOf(m, to).value
    ensures RateOf(m, from).None? && RateOf(m, to).None? ==> r == value
  {
    var inDefault := ConvertToDefault(m, value, from);
    ConvertFromDefault(m, inDefault, to)
  }

  /** Lookups ignore the case of the currency code. */
  lemma RateOfIgnoresCase(m: Rates, currency: string)
    ensures RateOf(m, currency) == RateOf(m, ToUpper(currency))
  {
    ToUpperIdempotent(currency);
  }

  lemma ConvertFromDefaultIgnoresCase(m: Rates, value: real, currency: string)
    ensures ConvertFromDefault(m, value, currency) == ConvertFromDefault(m, value, ToUpper(currency))
  {
    RateOfIgnoresCase(m, currency);
    var key := ToUpper(currency);
    assert ToUpper(key) == key;
    if key in m {
      assert ConvertFromDefault(m, value, key) == value * m[key];
    }
  }

  /** Converting into a currency and back gives the amount back. */
  lemma ToDefaultUndoesFromDefault(m: Rates, value: real, currency: string)
    requires NonZeroRateOf(m, currency)
    ensures ConvertToDefault(m, ConvertFromDefault(m, value, currency), currency) == value
  {
  }

  lemma FromDefaultUndoesToDefault(m: Rates, value: real, currency: string)
    requires NonZeroRateOf(m, currency)
    ensures ConvertFromDefault(m, ConvertToDefault(m, value, currency), currency) == value
  {
  }

  /** Converting a currency into itself changes nothing. */
  lemma ConvertSameCurrency(m: Rates, value: real, currency: string)
    requires NonZeroRateOf(m, currency)
    ensures Convert(m, value, currency, currency) == value
  {
    FromDefaultUndoesToDefault(m, value, currency);
  }

  /** Converting there and back again, through any second currency, is the identity. */
  lemma ConvertRoundTrip(m: Rates, value: real, from: string, to: string)
    requires NonZeroRateOf(m, from) && NonZeroRateOf(m, to)
    ensures Convert(m, Convert(m, value, from, to), to, from) == value
  {
    var inDefault := ConvertToDefault(m, value, from);
    ToDefaultUndoesFromDefault(m, inDefault, to);
    FromDefaultUndoesToDefault(m, value, from);
  }

  /** With the default table: 1000 SGD is 3030 MYR, and 100 USD is about 136.99 SGD. */
  lemma DefaultConversions()
    ensures Convert(DefaultRates(), 1000.0, "SGD", "MYR") == 3030.0
    ensures 136.98 < Convert(DefaultRates(), 100.0, "USD", "SGD") < 136.99
    ensures Convert(DefaultRates(), 1000.0, "sgd", "myr") == 3030.0
  {
    assert ToUpper("SGD") == "SGD";
    assert ToUpper("MYR") == "MYR";
    assert ToUpper("USD") == "USD";
    assert ToUpper("sgd") == "SGD";
    assert ToUpper("myr") == "MYR";
  }

  /** Codes missing from the table are passed through unconverted. */
  lemma UnknownCurrenciesPassThrough(m: Rates, value: real, from: string, to: string)
    requires ToUpper(from) !in m && ToUpper(to) !in m
    ensures Convert(m, value, from, to) == value
  {
  }
}
