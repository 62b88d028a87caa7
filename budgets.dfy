/** Budget: an amount for one month, and the MM/yyyy period syntax ^(0[1-9]|10|11|12)\/\d{4}$. */
module Budgets {
  import opened Text
  import Values

  /** The month and year a Calendar period stands for. */
  datatype MonthYear = MonthYear(month: int, year: int)

  datatype Budget = Budget(period: MonthYear, value: Values.Value)

  predicate IsMonthToken(a: char, b: char) {
    (a == '0' && '1' <= b <= '9') || (a == '1' && '0' <= b <= '2')
  }

  /** Budget.VALIDATION_REGEX: a two-character month 01-12, '/', then four digits. */
  function IsValidPeriod(s: string): (r: bool)
    ensures r ==> |s| == 7 && s[2] == '/' && AllDigits(s[..2]) && AllDigits(s[3..])
    ensures r ==> 1 <= DigitValue(s[0]) * 10 + DigitValue(s[1]) <= 12
  {
    |s| == 7 && IsMonthToken(s[0], s[1]) && s[2] == '/' && AllDigits(s[3..])
  }

  /** Valid exactly when it is two digits naming a month 01-12, then '/', then four digits. */
  lemma ValidPeriodMeaning(s: string)
    ensures IsValidPeriod(s) <==>
            |s| == 7 && AllDigits(s[..2]) && 1 <= DigitsValue(s[..2]) <= 12 && s[2] == '/' && AllDigits(s[3..])
  {
    if |s| == 7 && AllDigits(s[..2]) {
      var mm := s[..2];
      assert mm[..1] == [s[0]] && mm[1] == s[1];
      assert mm[..1][..0] == [];
      assert DigitsValue(mm[..1]) == DigitValue(s[0]);
      assert DigitsValue(mm) == DigitValue(s[0]) * 10 + DigitValue(s[1]);
    }
  }

  lemma RejectedPeriods()
    ensures !IsValidPeriod("13/2019") && !IsValidPeriod("1/2019") && !IsValidPeriod("00/2019")
    ensures !IsValidPeriod("03/19")
    ensures IsValidPeriod("01/2019") && IsValidPeriod("12/2019")
  {
  }

  /** The month and year of a valid period string. */
  function PeriodOf(s: string): (p: MonthYear)
    requires IsValidPeriod(s)
    ensures 1 <= p.month <= 12 && 0 <= p.year <= 9999
  {
    ValidPeriodMeaning(s);
    DigitsValueBound(s[3..]);
    assert Pow10(4) == 10000;
    MonthYear(DigitsValue(s[..2]), DigitsValue(s[3..]))
  }

  /** The MM/yyyy text of a month and year, both zero-padded. */
  function PeriodText(p: MonthYear): (s: string)
    requires 1 <= p.month <= 12 && 0 <= p.year <= 9999
    ensures |s| == 7
  {
    PaddedDigits(p.month, 2) + "/" + PaddedDigits(p.year, 4)
  }

  /** Every month and year is written as a valid period that reads back as that month and year. */
  lemma PeriodTextRoundTrip(p: MonthYear)
    requires 1 <= p.month <= 12 && 0 <= p.year <= 9999
    ensures IsValidPeriod(PeriodText(p)) && PeriodOf(PeriodText(p)) == p
  {
    var s := PeriodText(p);
    var mm, yyyy := PaddedDigits(p.month, 2), PaddedDigits(p.year, 4);
    assert Pow10(2) == 100 && Pow10(4) == 10000;
    PaddedDigitsRoundTrip(p.month, 2);
    PaddedDigitsRoundTrip(p.year, 4);
    assert s[..2] == mm && s[2] == '/' && s[3..] == yyyy;
    assert mm[..1][..0] == [];
    assert DigitsValue(mm) == DigitValue(mm[0]) * 10 + DigitValue(mm[1]);
    ValidPeriodMeaning(s);
  }

  /** Every valid period is the text of the month and year it reads as. */
  lemma PeriodOfRoundTrip(s: string)
    requires IsValidPeriod(s)
    ensures PeriodText(PeriodOf(s)) == s
  {
    var p := PeriodOf(s);
    DigitsPadRoundTrip(s[..2]);
    DigitsPadRoundTrip(s[3..]);
    assert s == s[..2] + "/" + s[3..];
  }

  /** equals: same period and same value. */
  function Equals(a: Budget, b: Budget): (r: bool)
    ensures r <==> a == b
  {
    a.period == b.period && Values.Equals(a.value, b.value)
  }

  /**
   * hashCode is Objects.hash(period, value), where the value contributes the hash of its amount
   * only; so it depends on the period and the amount.
   */
  function HashFields(b: Budget): (MonthYear, real) {
    (b.period, b.value.amount)
  }

  /** Equal budgets hash equally, and so do budgets whose values differ only in their currency. */
  lemma HashRespectsEquals(a: Budget, b: Budget)
    requires Equals(a, b) || b == a.(value := a.value.(currency := b.value.currency))
    ensures HashFields(a) == HashFields(b)
  {
  }
}
