/**
 Decimal text of integers: the zero-padded fields written by `strftime`
 and the plain `str(int)` text placed in the capture command line, each
 with the parser that inverts it.
 */
module Decimal {
  import opened Wrappers

  predicate IsDigit(c: char) {
    '0' <= c <= '9'
  }

  predicate AllDigits(s: string) {
    forall i :: 0 <= i < |s| ==> IsDigit(s[i])
  }

  function DigitChar(d: nat): (c: char)
    requires d < 10
    ensures IsDigit(c)
  {
    (d + '0' as int) as char
  }

  function DigitValue(c: char): (d: nat)
    requires IsDigit(c)
    ensures d < 10 && DigitChar(d) == c
  {
    c as int - '0' as int
  }

  function Pow10(w: nat): (p: nat)
    ensures p >= 1
  {
    if w == 0 then 1 else 10 * Pow10(w - 1)
  }

  /** The value of a run of decimal digits, most significant first. */
  function DigitsValue(s: string): (v: nat)
    requires AllDigits(s)
    ensures v < Pow10(|s|)
  {
    if |s| == 0 then 0
    else
      var hi := DigitsValue(s[..|s| - 1]);
      var d := DigitValue(s[|s| - 1]);
      assert 10 * hi + d < 10 * Pow10(|s| - 1) by {
        assert hi + 1 <= Pow10(|s| - 1);
      }
      10 * hi + d
  }

  /** `n` written in exactly `width` digits with leading zeros, as `%0<width>d` does. */
  function ZeroPad(n: nat, width: nat): (s: string)
    requires n < Pow10(width)
    ensures |s| == width && AllDigits(s)
    decreases width
  {
    if width == 0 then ""
    else
      assert n / 10 < Pow10(width - 1);
      ZeroPad(n / 10, width - 1) + [DigitChar(n % 10)]
  }

  /** Reading a zero-padded field gives back the number that was written. */
  lemma {:induction false} DigitsValueOfZeroPad(n: nat, width: nat)
    requires n < Pow10(width)
    ensures DigitsValue(ZeroPad(n, width)) == n
    decreases width
  {
    if width > 0 {
      assert n / 10 < Pow10(width - 1);
      var s := ZeroPad(n, width);
      assert s[..|s| - 1] == ZeroPad(n / 10, width - 1);
      DigitsValueOfZeroPad(n / 10, width - 1);
    }
  }

  /** Every run of digits is the zero-padded text of its own value. */
  lemma {:induction false} ZeroPadOfDigitsValue(s: string)
    requires AllDigits(s)
    ensures ZeroPad(DigitsValue(s), |s|) == s
  {
    if |s| > 0 {
      var init := s[..|s| - 1];
      ZeroPadOfDigitsValue(init);
      var v := DigitsValue(s);
      assert v / 10 == DigitsValue(init);
      assert v % 10 == DigitValue(s[|s| - 1]);
      assert s == init + [s[|s| - 1]];
    }
  }

  /** Two equal-width fields are equal exactly when their values are. */
  lemma ZeroPadInjective(a: nat, b: nat, width: nat)
    requires a < Pow10(width) && b < Pow10(width)
    ensures ZeroPad(a, width) == ZeroPad(b, width) <==> a == b
  {
    if ZeroPad(a, width) == ZeroPad(b, width) {
      DigitsValueOfZeroPad(a, width);
      DigitsValueOfZeroPad(b, width);
    }
  }

  /** Canonical decimal text: a single "0", or digits without a leading zero. */
  predicate IsCanonicalNat(s: string) {
    && |s| >= 1
    && AllDigits(s)
    && (|s| > 1 ==> s[0] != '0')
  }

  /** `str(n)` for a natural number. */
  function NatToString(n: nat): (s: string)
    ensures IsCanonicalNat(s)
  {
    if n < 10 then [DigitChar(n)]
    else NatToString(n / 10) + [DigitChar(n % 10)]
  }

  /** `str(n)` for any integer: a minus sign before the magnitude when negative. */
  function IntToString(n: int): (s: string)
    ensures |s| >= 1
    ensures n < 0 <==> s[0] == '-'
  {
    if n < 0 then "-" + NatToString(-n) else NatToString(n)
  }

  /** Reads text of the form produced by `IntToString`: an optional minus and canonical digits. */
  function ParseInt(s: string): (r: Option<int>)
    ensures r.Some? ==> |s| >= 1 && (r.value < 0 <==> s[0] == '-')
  {
    if |s| >= 2 && s[0] == '-' && IsCanonicalNat(s[1..]) && s[1..] != "0" then
      DigitsValueNonZeroLead(s[1..]);
      Some(-(DigitsValue(s[1..]) as int))
    else if IsCanonicalNat(s) then
      Some(DigitsValue(s))
    else
      None
  }

  lemma {:induction false} DigitsValueOfNatToString(n: nat)
    ensures DigitsValue(NatToString(n)) == n
  {
    if n >= 10 {
      var s := NatToString(n);
      assert s[..|s| - 1] == NatToString(n / 10);
      DigitsValueOfNatToString(n / 10);
    }
  }

  /** The text of a canonical digit run is the text of its value. */
  lemma {:induction false} NatToStringOfDigitsValue(s: string)
    requires IsCanonicalNat(s)
    ensures NatToString(DigitsValue(s)) == s
    decreases |s|
  {
    var init := s[..|s| - 1];
    var v := DigitsValue(s);
    if |s| == 1 {
      assert v == DigitValue(s[0]);
    } else {
      assert init[0] == s[0];
      assert IsCanonicalNat(init);
      NatToStringOfDigitsValue(init);
      assert init != "0";
      DigitsValueNonZeroLead(init);
      assert v >= 10;
      assert v / 10 == DigitsValue(init);
      assert v % 10 == DigitValue(s[|s| - 1]);
      assert s == init + [s[|s| - 1]];
    }
  }

  /** A canonical digit run other than "0" has a positive value. */
  lemma {:induction false} DigitsValueNonZeroLead(s: string)
    requires IsCanonicalNat(s) && s != "0"
    ensures DigitsValue(s) >= 1
    decreases |s|
  {
    if |s| > 1 {
      var init := s[..|s| - 1];
      assert init[0] == s[0];
      assert init != "0";
      DigitsValueNonZeroLead(init);
    } else {
      assert s == [s[0]];
      assert DigitValue(s[0]) != 0;
    }
  }

  /** `str` and `ParseInt` are inverse: the text names exactly its integer. */
  lemma IntToStringRoundTrip(n: int)
    ensures ParseInt(IntToString(n)) == Some(n)
  {
    var s := IntToString(n);
    DigitsValueOfNatToString(if n < 0 then -n else n);
    if n < 0 {
      assert s[1..] == NatToString(-n);
      assert DigitsValue(s[1..]) == -n;
      assert DigitsValue("0") == 0;
    } else {
      assert s[0] != '-';
    }
  }

  /** Parsed text is the canonical text of what it parses to. */
  lemma ParseIntCanonical(s: string)
    requires ParseInt(s).Some?
    ensures IntToString(ParseInt(s).value) == s
  {
    if |s| >= 2 && s[0] == '-' && IsCanonicalNat(s[1..]) && s[1..] != "0" {
      NatToStringOfDigitsValue(s[1..]);
      DigitsValueNonZeroLead(s[1..]);
      assert s == "-" + s[1..];
    } else {
      NatToStringOfDigitsValue(s);
    }
  }
}
