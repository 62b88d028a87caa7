/**
 * Value: a monetary amount with its currency code. An amount string is valid when it matches
 * ^(?=.*[1-9])\d{1,9}(?:\.\d{0,2})?$ : one to nine digits, optionally a point and at most two
 * more digits, and at least one digit other than 0 somewhere.
 */
module Values {
  import opened Wrappers
  import opened Text
  import opened CurrencyUtil

  const DefaultCurrency: string := "SGD"

  datatype Value = Value(amount: real, currency: string)

  datatype ValueError = ValueConstraints | CurrencyConstraints

  /** Length of the longest prefix of s made of digits (what a greedy \d* consumes). */
  function DigitRun(s: string): (k: nat)
    ensures k <= |s| && AllDigits(s[..k])
    ensures k < |s| ==> !IsDigit(s[k])
  {
    if s == [] || !IsDigit(s[0]) then 0
    else
      var k' := DigitRun(s[1..]);
      assert s[..1 + k'] == [s[0]] + s[1..][..k'];
      1 + k'
  }

  predicate HasNonZeroDigit(s: string) {
    exists j :: 0 <= j < |s| && '1' <= s[j] <= '9'
  }

  /** The shape after the integer digits that start at position k: nothing, or '.' and 0-2 digits. */
  predicate ValidTail(s: string, k: nat)
    requires k <= |s|
  {
    k == |s| || (s[k] == '.' && |s| - k - 1 <= 2 && AllDigits(s[k + 1..]))
  }

  /** isValidValue, written as a left-to-right scan. */
  predicate IsValidValue(s: string) {
    var k := DigitRun(s);
    1 <= k <= 9 && ValidTail(s, k) && HasNonZeroDigit(s)
  }

  /** The regular expression read literally: some split of s into \d{1,9} and (\.\d{0,2})?. */
  ghost predicate MatchesValueRegex(s: string) {
    HasNonZeroDigit(s) &&
    exists i: nat :: 1 <= i <= 9 && i <= |s| && AllDigits(s[..i]) && ValidTail(s, i)
  }

  /** The scan accepts exactly the strings the regular expression matches. */
  lemma ValidValueIffRegex(s: string)
    ensures IsValidValue(s) <==> MatchesValueRegex(s)
  {
    var k := DigitRun(s);
    if IsValidValue(s) {
      assert AllDigits(s[..k]) && ValidTail(s, k);
    }
    if MatchesValueRegex(s) {
      var i: nat :| 1 <= i <= 9 && i <= |s| && AllDigits(s[..i]) && ValidTail(s, i);
      assert k == i;
    }
  }

  lemma Pow10Monotone(a: nat, b: nat)
    requires a <= b
    ensures Pow10(a) <= Pow10(b)
    decreases b
  {
    if a < b {
      Pow10Monotone(a, b - 1);
    }
  }

  function IntegerDigits(s: string): (d: string)
    requires IsValidValue(s)
    ensures AllDigits(d) && 1 <= |d| <= 9
  {
    s[..DigitRun(s)]
  }

  function FractionDigits(s: string): (d: string)
    requires IsValidValue(s)
    ensures AllDigits(d) && |d| <= 2
  {
    var k := DigitRun(s);
    if k == |s| then [] else s[k + 1..]
  }

  /**
   * Double.parseDouble on a valid amount string, read exactly. Every valid amount is positive
   * and, having at most nine integer digits, below one billion.
   */
  function AmountOf(s: string): (r: real)
    requires IsValidValue(s)
    ensures 0.0 < r < 1000000000.0
  {
    AmountBounds(s);
    DigitsValue(IntegerDigits(s)) as real + FractionValue(FractionDigits(s))
  }

  /** The value of the at most two digits after the point: d / 10^|d|. */
  function FractionValue(d: string): real
    requires AllDigits(d) && |d| <= 2
  {
    if |d| == 0 then 0.0
    else if |d| == 1 then DigitsValue(d) as real / 10.0
    else DigitsValue(d) as real / 100.0
  }

  /** The digits after the point denote less than one. */
  lemma FractionBelowOne(d: string)
    requires AllDigits(d) && |d| <= 2
    ensures 0.0 <= FractionValue(d) < 1.0
  {
    DigitsValueBound(d);
    assert Pow10(1) == 10 && Pow10(2) == 100;
  }

  /** A non-zero digit after the point makes the fraction positive. */
  lemma FractionPositive(d: string, j: nat)
    requires AllDigits(d) && |d| <= 2 && j < |d| && d[j] != '0'
    ensures FractionValue(d) > 0.0
  {
    DigitsValuePositive(d, j);
  }

  /** At most nine integer digits denote less than one billion. */
  lemma IntegerBelowBillion(ip: string)
    requires AllDigits(ip) && |ip| <= 9
    ensures DigitsValue(ip) < 1000000000
  {
    DigitsValueBound(ip);
    Pow10Monotone(|ip|, 9);
    assert Pow10(9) == 1000000000;
  }

  lemma AmountBounds(s: string)
    requires IsValidValue(s)
    ensures var r := DigitsValue(IntegerDigits(s)) as real + FractionValue(FractionDigits(s));
            0.0 < r < 1000000000.0
  {
    var ip := IntegerDigits(s);
    var fp := FractionDigits(s);
    var k := DigitRun(s);
    IntegerBelowBillion(ip);
    FractionBelowOne(fp);
    var j :| 0 <= j < |s| && '1' <= s[j] <= '9';
    if j < k {
      assert ip[j] == s[j];
      DigitsValuePositive(ip, j);
    } else {
      assert j > k;
      assert fp[j - k - 1] == s[j];
      FractionPositive(fp, j - k - 1);
    }
  }

  /** Amounts the validation refuses: no non-zero digit, no integer digit, too many digits. */
  lemma RejectedAmounts()
    ensures !IsValidValue("0") && !IsValidValue("0.00") && !IsValidValue(".00") && !IsValidValue("")
  {
    assert DigitRun("0") == 1 && !HasNonZeroDigit("0");
    assert DigitRun("0.00") == 1 && !HasNonZeroDigit("0.00");
    assert DigitRun(".00") == 0;
  }

  lemma RejectedLongAmounts()
    ensures !IsValidValue("1000000000") && !IsValidValue("1.234")
  {
    assert DigitRun("1000000000") == 10;
    assert DigitRun("1.234") == 1;
  }

  /** A trailing point and a leading zero are accepted. */
  lemma AcceptedAmounts()
    ensures IsValidValue("5.") && AmountOf("5.") == 5.0
    ensures IsValidValue("0.01") && AmountOf("0.01") == 0.01
  {
    assert DigitRun("5.") == 1 && "5."[0] == '5';
    assert "5."[..1] == "5";
    assert DigitRun("0.01") == 1 && "0.01"[3] == '1';
    assert "0.01"[..1] == "0" && "0.01"[2..] == "01";
    assert "01"[..1] == "0";
  }

  lemma AcceptedTestAmounts()
    ensures IsValidValue("3.50") && AmountOf("3.50") == 3.5
    ensures IsValidValue("350") && AmountOf("350") == 350.0
  {
    assert "350"[..3] == "350" && "350"[..2] == "35" && "35"[..1] == "3" && "3"[..0] == "";
    assert DigitRun("3.50") == 1 && "3.50"[0] == '3';
    assert "3.50"[..1] == "3" && "3.50"[2..] == "50";
    assert "50"[..1] == "5";
    assert DigitRun("350") == 3 && "350"[0] == '3';
  }

  /** isValidCurrency: a key of the current currency table (exact case, unlike conversion). */
  predicate IsValidCurrency(rates: Rates, currency: string) {
    currency in rates
  }

  /** Under the default table the supported currencies are exactly SGD, MYR, USD and EUR. */
  lemma DefaultCurrencies(currency: string)
    ensures IsValidCurrency(DefaultRates(), currency) <==>
            currency == "SGD" || currency == "MYR" || currency == "USD" || currency == "EUR"
    ensures !IsValidCurrency(DefaultRates(), "sgd")
  {
    assert DefaultRates().Keys == {"SGD", "MYR", "USD", "EUR"};
  }

  /** new Value(value): a valid amount, always in SGD. */
  function NewValue(amount: string): (r: Result<Value, ValueError>)
    ensures r.Success? <==> IsValidValue(amount)
    ensures r.Failure? ==> r.error == ValueConstraints
    ensures r.Success? ==> r.value.currency == DefaultCurrency && r.value.amount == AmountOf(amount)
  {
    if !IsValidValue(amount) then Failure(ValueConstraints)
    else Success(Value(AmountOf(amount), DefaultCurrency))
  }

  /** new Value(amount, currency): the amount is checked first, then the currency. */
  function NewValueIn(rates: Rates, amount: string, currency: string): (r: Result<Value, ValueError>)
    ensures r.Success? <==> IsValidValue(amount) && IsValidCurrency(rates, currency)
    ensures !IsValidValue(amount) ==> r == Failure(ValueConstraints)
    ensures IsValidValue(amount) && !IsValidCurrency(rates, currency) ==> r == Failure(CurrencyConstraints)
    ensures r.Success? ==> r.value.amount == AmountOf(amount) && r.value.currency == currency
  {
    if !IsValidValue(amount) then Failure(ValueConstraints)
    else if !IsValidCurrency(rates, currency) then Failure(CurrencyConstraints)
    else Success(Value(AmountOf(amount), currency))
  }

  /** getMonetaryValue: the amount scaled by its currency's rate (and unchanged for unknown codes). */
  function MonetaryValue(v: Value, rates: Rates): (r: real)
    ensures RateOf(rates, v.currency).Some? ==> r == v.amount * RateOf(rates, v.currency).value
    ensures RateOf(rates, v.currency).None? ==> r == v.amount
  {
    ConvertFromDefault(rates, v.amount, v.currency)
  }

  /** An SGD value's monetary value is its amount whenever the table maps SGD to 1. */
  lemma MonetaryValueOfDefaultCurrency(v: Value, rates: Rates)
    requires v.currency == DefaultCurrency
    requires "SGD" in rates && rates["SGD"] == 1.0
    ensures MonetaryValue(v, rates) == v.amount
  {
    assert ToUpper("SGD") == "SGD";
  }

  /** equals: same amount and same currency, which is structural equality of the record. */
  function Equals(a: Value, b: Value): (r: bool)
    ensures r <==> a == b
  {
    a.amount == b.amount && a.currency == b.currency
  }

  /** hashCode hashes the amount only; `doubleHash` stands for Double.hashCode. */
  function Hash(v: Value, doubleHash: real -> int): (h: int)
    ensures forall c :: h == doubleHash(v.(currency := c).amount)
  {
    doubleHash(v.amount)
  }

  /** Equal values hash equally, and so do values that differ only in their currency. */
  lemma HashRespectsEquals(a: Value, b: Value, doubleHash: real -> int)
    requires Equals(a, b) || a.amount == b.amount
    ensures Hash(a, doubleHash) == Hash(b, doubleHash)
  {
  }
}
