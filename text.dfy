/**
 * Character-level helpers shared by the parsers and validators: Java's String.trim,
 * toUpperCase on the ASCII letters, and decimal digit strings.
 */
module Text {

  /** Java's String.trim removes every leading and trailing char whose code is at most U+0020. */
  predicate IsTrimmable(c: char) {
    c <= ' '
  }

  predicate AllTrimmable(s: string) {
    forall i :: 0 <= i < |s| ==> IsTrimmable(s[i])
  }

  function TrimStart(s: string): string {
    if |s| > 0 && IsTrimmable(s[0]) then TrimStart(s[1..]) else s
  }

  function TrimEnd(s: string): string {
    if |s| > 0 && IsTrimmable(s[|s| - 1]) then TrimEnd(s[..|s| - 1]) else s
  }

  /** String.trim(). */
  function Trim(s: string): string {
    TrimEnd(TrimStart(s))
  }

  lemma {:induction false} TrimStartAllTrimmable(s: string)
    requires AllTrimmable(s)
    ensures TrimStart(s) == []
  {
    if |s| > 0 {
      TrimStartAllTrimmable(s[1..]);
    }
  }

  lemma {:induction false} TrimEndAllTrimmable(s: string)
    requires AllTrimmable(s)
    ensures TrimEnd(s) == []
  {
    if |s| > 0 {
      TrimEndAllTrimmable(s[..|s| - 1]);
    }
  }

  /** Trimming the front of a + b either consumes all of a or stops inside it. */
  lemma {:induction false} TrimStartAppend(a: string, b: string)
    ensures TrimStart(a + b) == if AllTrimmable(a) then TrimStart(b) else TrimStart(a) + b
  {
    if |a| > 0 {
      assert (a + b)[0] == a[0];
      if IsTrimmable(a[0]) {
        assert (a + b)[1..] == a[1..] + b;
        TrimStartAppend(a[1..], b);
        if AllTrimmable(a[1..]) {
          assert AllTrimmable(a) by {
            forall i | 0 <= i < |a| ensures IsTrimmable(a[i]) {
              if i > 0 { assert a[i] == a[1..][i - 1]; }
            }
          }
        } else {
          var j :| 0 <= j < |a[1..]| && !IsTrimmable(a[1..][j]);
          assert !IsTrimmable(a[j + 1]);
        }
      } else {
        assert !AllTrimmable(a);
      }
    } else {
      assert a + b == b;
    }
  }

  /** Trailing trimmable characters never survive TrimEnd. */
  lemma {:induction false} TrimEndAppendTrimmable(a: string, q: string)
    requires AllTrimmable(q)
    ensures TrimEnd(a + q) == TrimEnd(a)
    decreases |q|
  {
    if |q| > 0 {
      var aq := a + q;
      assert aq[|aq| - 1] == q[|q| - 1];
      assert aq[..|aq| - 1] == a + q[..|q| - 1];
      TrimEndAppendTrimmable(a, q[..|q| - 1]);
    } else {
      assert a + q == a;
    }
  }

  /** Parsing is insensitive to surrounding whitespace: Trim(p + s + q) == Trim(s). */
  lemma TrimIgnoresPadding(p: string, s: string, q: string)
    requires AllTrimmable(p) && AllTrimmable(q)
    ensures Trim(p + s + q) == Trim(s)
  {
    assert p + s + q == p + (s + q);
    TrimStartAppend(p, s + q);
    TrimStartAppend(s, q);
    if AllTrimmable(s) {
      TrimStartAllTrimmable(q);
      TrimStartAllTrimmable(s);
    } else {
      TrimEndAppendTrimmable(TrimStart(s), q);
    }
  }

  /** A string with no whitespace at either end is its own trim. */
  lemma TrimUnpadded(s: string)
    requires s == [] || (!IsTrimmable(s[0]) && !IsTrimmable(s[|s| - 1]))
    ensures Trim(s) == s
  {
  }

  /** Trimming twice is trimming once. */
  lemma TrimIdempotent(s: string)
    ensures Trim(Trim(s)) == Trim(s)
  {
    TrimStartNoLead(s);
    TrimEndKeepsNoLead(TrimStart(s));
    TrimEndNoTrail(TrimStart(s));
    var t := Trim(s);
    assert TrimStart(t) == t;
    assert TrimEnd(t) == t;
  }

  lemma {:induction false} TrimStartNoLead(s: string)
    ensures TrimStart(s) == [] || !IsTrimmable(TrimStart(s)[0])
  {
    if |s| > 0 && IsTrimmable(s[0]) {
      TrimStartNoLead(s[1..]);
    }
  }

  lemma {:induction false} TrimEndNoTrail(s: string)
    ensures var t := TrimEnd(s); t == [] || !IsTrimmable(t[|t| - 1])
  {
    if |s| > 0 && IsTrimmable(s[|s| - 1]) {
      TrimEndNoTrail(s[..|s| - 1]);
    }
  }

  /** TrimEnd only drops a suffix, so a non-trimmable first character survives it. */
  lemma {:induction false} TrimEndKeepsNoLead(s: string)
    requires s == [] || !IsTrimmable(s[0])
    ensures var t := TrimEnd(s); t == [] || (|t| <= |s| && t == s[..|t|] && !IsTrimmable(t[0]))
  {
    if |s| > 0 && IsTrimmable(s[|s| - 1]) {
      var s' := s[..|s| - 1];
      assert s' == [] || s'[0] == s[0];
      TrimEndKeepsNoLead(s');
      var t := TrimEnd(s');
      if t != [] {
        assert t == s'[..|t|] == s[..|t|];
      }
    }
  }

  /** Java's toUpperCase, restricted to the ASCII letters (currency codes are ASCII). */
  function UpperChar(c: char): char {
    if 'a' <= c <= 'z' then (c as int - 'a' as int + 'A' as int) as char else c
  }

  function ToUpper(s: string): (r: string)
    ensures |r| == |s|
    ensures forall i :: 0 <= i < |s| ==> r[i] == UpperChar(s[i])
  {
    if s == [] then [] else [UpperChar(s[0])] + ToUpper(s[1..])
  }

  /** Upper-casing an upper-cased string changes nothing more. */
  lemma ToUpperIdempotent(s: string)
    ensures ToUpper(ToUpper(s)) == ToUpper(s)
  {
    var u := ToUpper(s);
    assert forall i :: 0 <= i < |u| ==> UpperChar(u[i]) == u[i];
  }

  predicate IsDigit(c: char) {
    '0' <= c <= '9'
  }

  predicate AllDigits(s: string) {
    forall i :: 0 <= i < |s| ==> IsDigit(s[i])
  }

  function DigitValue(c: char): nat
    requires IsDigit(c)
  {
    c as int - '0' as int
  }

  function Pow10(n: nat): (r: nat)
    ensures r >= 1
  {
    if n == 0 then 1 else 10 * Pow10(n - 1)
  }

  /** The number a decimal digit string denotes (leading zeros allowed). */
  function DigitsValue(s: string): nat
    requires AllDigits(s)
  {
    if s == [] then 0 else DigitsValue(s[..|s| - 1]) * 10 + DigitValue(s[|s| - 1])
  }

  /** n digits denote less than 10^n. */
  lemma {:induction false} DigitsValueBound(s: string)
    requires AllDigits(s)
    ensures DigitsValue(s) < Pow10(|s|)
  {
    if s != [] {
      DigitsValueBound(s[..|s| - 1]);
    }
  }

  /** A digit string with a digit other than '0' denotes a positive number. */
  lemma {:induction false} DigitsValuePositive(s: string, j: nat)
    requires AllDigits(s) && j < |s| && s[j] != '0'
    ensures DigitsValue(s) > 0
  {
    if j < |s| - 1 {
      DigitsValuePositive(s[..|s| - 1], j);
    }
  }

  /** Decimal rendering of a natural number, without leading zeros. */
  function NatToString(n: nat): (r: string)
    ensures |r| > 0 && AllDigits(r)
  {
    var d := [('0' as int + n % 10) as char];
    if n < 10 then d else NatToString(n / 10) + d
  }

  /** The last `width` decimal digits of n, with leading zeros (String.format's %0<width>d for n below 10^width). */
  function PaddedDigits(n: nat, width: nat): (r: string)
    ensures |r| == width && AllDigits(r)
  {
    if width == 0 then [] else PaddedDigits(n / 10, width - 1) + [('0' as int + n % 10) as char]
  }

  /** A number below 10^width reads back from its padded rendering. */
  lemma {:induction false} PaddedDigitsRoundTrip(n: nat, width: nat)
    requires n < Pow10(width)
    ensures DigitsValue(PaddedDigits(n, width)) == n
  {
    if width > 0 {
      var r := PaddedDigits(n, width);
      assert r[..|r| - 1] == PaddedDigits(n / 10, width - 1);
      PaddedDigitsRoundTrip(n / 10, width - 1);
    }
  }

  /** A digit string is the padded rendering of the number it denotes, at its own width. */
  lemma {:induction false} DigitsPadRoundTrip(s: string)
    requires AllDigits(s)
    ensures PaddedDigits(DigitsValue(s), |s|) == s
  {
    if s != [] {
      var init := s[..|s| - 1];
      var n := DigitsValue(s);
      assert n / 10 == DigitsValue(init) && n % 10 == DigitValue(s[|s| - 1]);
      DigitsPadRoundTrip(init);
      assert s == init + [s[|s| - 1]];
    }
  }

  /** Reading back a rendered number gives the number. */
  lemma {:induction false} NatToStringRoundTrip(n: nat)
    ensures DigitsValue(NatToString(n)) == n
  {
    var r := NatToString(n);
    if n >= 10 {
      var prefix := NatToString(n / 10);
      assert r[..|r| - 1] == prefix;
      NatToStringRoundTrip(n / 10);
    }
  }
}
